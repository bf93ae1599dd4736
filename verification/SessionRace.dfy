/** Concurrent first writes to one new session (cmd/vertex-runtime/sessionstore.go,
    AppendMessages and ensureSession): N writers, one shared log, every interleaving of
    their calls with the server settling creates in its own time. */
module SessionRace {
  import opened SessionStore
  import opened SessionFacts

  // A create the server has accepted, and what became of it.
  datatype Creation = Pending | Created | Conflicted

  datatype Phase =
    | Start
    | Absent
    | Waiting(creation: Creation)
    | Writing(pos: nat)
    | Done
    | GaveUp(written: nat)

  datatype Entry = Entry(writer: nat, event: SessionEvent)

  // creations counts how often the session came into being, strays the accepted
  // creates nobody waits for any more; faulted holds the writers hit by a fault, and
  // refused those told the session exists while it was only on its way.
  datatype Race = Race(
    phases: seq<Phase>,
    present: bool,
    log: seq<Entry>,
    strays: nat,
    creations: nat,
    faulted: set<nat>,
    refused: set<nat>
  )

  type Batches = seq<seq<Message>>

  datatype Move =
    | Advance(writer: nat, outcome: Outcome)
    | Settle(writer: nat)
    | Refuse(writer: nat)
    | SettleStray

  function EventsFor(batches: Batches, w: nat): Log
    requires w < |batches|
  {
    EventsOf(batches[w], w)
  }

  function Begin(batches: Batches): Race {
    Race(seq(|batches|, _ => Start), false, [], 0, 0, {}, {})
  }

  function At(s: Race, w: nat, phase: Phase): Race
    requires w < |s.phases|
  {
    s.(phases := s.phases[w := phase])
  }

  function Fault(s: Race, w: nat, written: nat): Race
    requires w < |s.phases|
  {
    At(s, w, GaveUp(written)).(faulted := s.faulted + {w})
  }

  // The server brings the session up, or finds it there.
  function BringUp(s: Race): Race {
    if s.present then s else s.(present := true, creations := s.creations + 1)
  }

  // Somebody else's create is on its way.
  predicate OthersPending(s: Race, w: nat) {
    s.strays > 0 || exists v :: 0 <= v < |s.phases| && v != w && s.phases[v] == Waiting(Pending)
  }

  // A create refused as already existing because of one that is only on its way: at
  // once, or by the operation that was being waited for.
  function Refused(s: Race, w: nat): Race
    requires w < |s.phases|
  {
    At(s, w, if s.phases[w].Absent? then Writing(0) else Waiting(Conflicted)).(refused := s.refused + {w})
  }

  // Get: there already, or to be created.
  function Getting(s: Race, w: nat, outcome: Outcome): Race
    requires w < |s.phases|
  {
    if !outcome.Fine? then Fault(s, w, 0) else if s.present then At(s, w, Writing(0)) else At(s, w, Absent)
  }

  // Create: refused because the session is there, accepted, or lost on the way.
  function Creating(s: Race, w: nat, outcome: Outcome): Race
    requires w < |s.phases|
  {
    match outcome
    case FailEarly => Fault(s, w, 0)
    case FailLate => Fault(s, w, 0).(strays := s.strays + 1)
    case Fine => if s.present then At(s, w, Writing(0)) else At(s, w, Waiting(Pending))
  }

  // Wait: the create succeeded or lost the race, and either will do.
  function WaitingFor(s: Race, w: nat, creation: Creation, outcome: Outcome): Race
    requires w < |s.phases| && (creation.Pending? ==> !outcome.Fine?)
  {
    if !outcome.Fine? then Fault(s, w, 0).(strays := s.strays + if creation.Pending? then 1 else 0)
    else At(s, w, Writing(0))
  }

  // Append the next event. An append to a missing session fails, and that is no fault.
  function Appending(batches: Batches, s: Race, w: nat, pos: nat, outcome: Outcome): Race
    requires w < |s.phases| == |batches| && pos < |EventsFor(batches, w)|
  {
    var entry := Entry(w, EventsFor(batches, w)[pos]);
    if outcome.FailEarly? then Fault(s, w, pos)
    else if !s.present then At(s, w, GaveUp(pos))
    else if outcome.FailLate? then Fault(s, w, pos + 1).(log := s.log + [entry])
    else At(s, w, Writing(pos + 1)).(log := s.log + [entry])
  }

  predicate Enabled(batches: Batches, s: Race, m: Move) {
    |s.phases| == |batches|
    && match m
       case Advance(w, outcome) =>
         && w < |s.phases|
         && !s.phases[w].Done? && !s.phases[w].GaveUp?
         && (s.phases[w] == Waiting(Pending) ==> !outcome.Fine?)
         && (s.phases[w].Writing? ==> s.phases[w].pos <= |EventsFor(batches, w)|)
       case Settle(w) => w < |s.phases| && s.phases[w] == Waiting(Pending)
       case Refuse(w) =>
         && w < |s.phases| && (s.phases[w].Absent? || s.phases[w] == Waiting(Pending))
         && !s.present && OthersPending(s, w)
       case SettleStray => s.strays > 0
  }

  function Moved(batches: Batches, s: Race, m: Move): Race
    requires Enabled(batches, s, m)
  {
    match m
    case Settle(w) => At(BringUp(s), w, Waiting(if s.present then Conflicted else Created))
    case Refuse(w) => Refused(s, w)
    case SettleStray => BringUp(s).(strays := s.strays - 1)
    case Advance(w, outcome) =>
      match s.phases[w]
      case Start => if batches[w] == [] then At(s, w, Done) else Getting(s, w, outcome)
      case Absent => Creating(s, w, outcome)
      case Waiting(creation) => WaitingFor(s, w, creation, outcome)
      case Writing(pos) =>
        if pos == |EventsFor(batches, w)| then At(s, w, Done) else Appending(batches, s, w, pos, outcome)
      case _ => s
  }

  // Any schedule at all; a move that is not possible is skipped.
  function RunRace(batches: Batches, s: Race, moves: seq<Move>): Race
    decreases |moves|
  {
    if moves == [] then s
    else RunRace(batches, if Enabled(batches, s, moves[0]) then Moved(batches, s, moves[0]) else s, moves[1..])
  }

  // ---- The invariant ----

  // One writer's entries of the shared log, in order.
  function Restricted(log: seq<Entry>, w: nat): Log {
    if log == [] then []
    else
      var last := log[|log| - 1];
      Restricted(log[..|log| - 1], w) + if last.writer == w then [last.event] else []
  }

  function Written(batches: Batches, w: nat, phase: Phase): nat
    requires w < |batches|
  {
    match phase
    case Writing(pos) => pos
    case GaveUp(written) => written
    case Done => |EventsFor(batches, w)|
    case _ => 0
  }

  // Past the point where the session has to be there.
  predicate Past(batches: Batches, w: nat, phase: Phase)
    requires w < |batches|
  {
    match phase
    case Waiting(creation) => !creation.Pending?
    case Writing(_) => true
    case Done => batches[w] != []
    case _ => false
  }

  ghost predicate WriterOk(batches: Batches, s: Race, w: nat)
    requires w < |s.phases| == |batches|
  {
    var phase := s.phases[w];
    && (Past(batches, w, phase) ==> s.present || w in s.refused)
    && Written(batches, w, phase) <= |EventsFor(batches, w)|
    && Restricted(s.log, w) == EventsFor(batches, w)[..Written(batches, w, phase)]
    && (w in s.faulted ==> phase.GaveUp?)
    && (phase.GaveUp? && w !in s.faulted ==> w in s.refused && phase.written == 0)
    && (phase.Writing? && !s.present ==> phase.pos == 0)
  }

  ghost predicate RaceOk(batches: Batches, s: Race) {
    && |s.phases| == |batches|
    && s.creations == (if s.present then 1 else 0)
    && (forall i :: 0 <= i < |s.log| ==> s.log[i].writer < |batches|)
    && forall w :: 0 <= w < |batches| ==> WriterOk(batches, s, w)
  }

  lemma RestrictedSnoc(log: seq<Entry>, entry: Entry, w: nat)
    ensures Restricted(log + [entry], w) == Restricted(log, w) + if entry.writer == w then [entry.event] else []
  {}

  // A move of one writer leaves every other writer's part of the invariant alone.
  lemma OthersOk(batches: Batches, s: Race, t: Race, w: nat, other: nat)
    requires w < |s.phases| == |t.phases| == |batches| && other < |batches| && other != w
    requires WriterOk(batches, s, other) && t.phases[other] == s.phases[other]
    requires (s.present ==> t.present) && (other in t.faulted <==> other in s.faulted)
    requires other in t.refused <==> other in s.refused
    requires t.log == s.log || exists event :: t.log == s.log + [Entry(w, event)]
    ensures WriterOk(batches, t, other)
  {}

  lemma AppendOk(batches: Batches, s: Race, w: nat, pos: nat, outcome: Outcome)
    requires RaceOk(batches, s) && w < |batches| && s.phases[w] == Writing(pos) && pos < |EventsFor(batches, w)|
    ensures WriterOk(batches, Appending(batches, s, w, pos, outcome), w)
  {
    hide EventsFor;
    var events := EventsFor(batches, w);
    var entry := Entry(w, events[pos]);
    assert WriterOk(batches, s, w);
    assert Restricted(s.log + [entry], w) == events[..pos + 1] by {
      RestrictedSnoc(s.log, entry, w);
      assert events[..pos] + [events[pos]] == events[..pos + 1];
    }
    hide RaceOk, Restricted;
    var t := Appending(batches, s, w, pos, outcome);
    assert Written(batches, w, t.phases[w]) == if t.log == s.log then pos else pos + 1;
  }

  lemma MoverOk(batches: Batches, s: Race, m: Move)
    requires RaceOk(batches, s) && Enabled(batches, s, m) && !m.SettleStray?
    ensures WriterOk(batches, Moved(batches, s, m), m.writer)
  {
    var w := m.writer;
    assert WriterOk(batches, s, w);
    if m.Advance? && s.phases[w].Writing? && s.phases[w].pos < |EventsFor(batches, w)| {
      AppendOk(batches, s, w, s.phases[w].pos, m.outcome);
      hide Appending, WriterOk, EventsFor;
    } else if s.phases[w].Start? && batches[w] == [] {
      assert EventsFor(batches, w) == [];
    } else {
      hide EventsFor, Restricted;
    }
  }

  // A move of w changes nothing of the other writers and adds at most an entry of its own.
  ghost predicate OwnMove(batches: Batches, s: Race, t: Race, w: nat)
    requires |s.phases| == |t.phases| == |batches|
  {
    && (forall v :: 0 <= v < |batches| && v != w ==> t.phases[v] == s.phases[v])
    && (forall v :: v != w ==> (v in t.faulted <==> v in s.faulted))
    && (forall v :: v != w ==> (v in t.refused <==> v in s.refused))
    && (t.log == s.log || exists event :: t.log == s.log + [Entry(w, event)])
  }

  ghost predicate CreatedOnce(s: Race, t: Race) {
    t.creations == (if t.present then 1 else 0) && (s.present ==> t.present)
  }

  lemma AdvanceKeepsShape(batches: Batches, s: Race, w: nat, outcome: Outcome)
    requires RaceOk(batches, s) && Enabled(batches, s, Advance(w, outcome))
    ensures var t := Moved(batches, s, Advance(w, outcome));
            |t.phases| == |batches| && CreatedOnce(s, t) && OwnMove(batches, s, t, w)
  {
    hide EventsFor, WriterOk;
    if s.phases[w].Writing? && s.phases[w].pos < |EventsFor(batches, w)| {
      hide RaceOk;
      var t := Appending(batches, s, w, s.phases[w].pos, outcome);
      assert t.log == s.log || t.log == s.log + [Entry(w, EventsFor(batches, w)[s.phases[w].pos])];
    } else {
      hide Appending;
    }
  }

  lemma MoveKeepsShape(batches: Batches, s: Race, m: Move)
    requires RaceOk(batches, s) && Enabled(batches, s, m)
    ensures var t := Moved(batches, s, m);
            && |t.phases| == |batches| && CreatedOnce(s, t)
            && (m.SettleStray?
                ==> && t.phases == s.phases && t.log == s.log
                    && t.faulted == s.faulted && t.refused == s.refused)
            && (!m.SettleStray? ==> OwnMove(batches, s, t, m.writer))
  {
    hide EventsFor, WriterOk;
    if m.Advance? {
      AdvanceKeepsShape(batches, s, m.writer, m.outcome);
      hide Moved, OwnMove;
    }
  }

  // Every move keeps the invariant.
  lemma MoveKeepsRaceOk(batches: Batches, s: Race, m: Move)
    requires RaceOk(batches, s) && Enabled(batches, s, m)
    ensures RaceOk(batches, Moved(batches, s, m))
  {
    var t := Moved(batches, s, m);
    MoveKeepsShape(batches, s, m);
    if !m.SettleStray? {
      MoverOk(batches, s, m);
    }
    forall v | 0 <= v < |batches|
      ensures WriterOk(batches, t, v)
    {
      assert WriterOk(batches, s, v);
      if !m.SettleStray? && v != m.writer {
        OthersOk(batches, s, t, m.writer, v);
      }
    }
  }

  lemma BeginOk(batches: Batches)
    ensures RaceOk(batches, Begin(batches))
  {}

  lemma {:induction false} RunKeepsRaceOk(batches: Batches, s: Race, moves: seq<Move>)
    requires RaceOk(batches, s)
    ensures RaceOk(batches, RunRace(batches, s, moves))
    decreases |moves|
  {
    if moves != [] {
      if Enabled(batches, s, moves[0]) {
        MoveKeepsRaceOk(batches, s, moves[0]);
        RunKeepsRaceOk(batches, Moved(batches, s, moves[0]), moves[1..]);
      } else {
        RunKeepsRaceOk(batches, s, moves[1..]);
      }
    }
  }

  // In every interleaving: the session is created at most once; each writer's part of
  // the shared log is exactly what it has written so far, in order, the whole batch
  // once it is done; a writer never told the session exists too early fails only by a
  // fault of its own, and once it is done with something to say the session is there;
  // and one told too early that fails without a fault has written nothing.
  lemma NobodyLosesTheRace(batches: Batches, moves: seq<Move>, w: nat)
    requires w < |batches|
    ensures var s := RunRace(batches, Begin(batches), moves);
            && |s.phases| == |batches|
            && s.creations <= 1
            && Restricted(s.log, w) <= EventsFor(batches, w)
            && (s.phases[w].Done? ==> Restricted(s.log, w) == EventsFor(batches, w))
            && (s.phases[w].Done? ==> Replayed(Restricted(s.log, w)) == Visible(batches[w]))
            && (w !in s.refused ==> (s.phases[w].GaveUp? <==> w in s.faulted))
            && (w !in s.refused && s.phases[w].Done? && batches[w] != [] ==> s.creations == 1)
            && (s.phases[w].GaveUp? && w !in s.faulted ==> Restricted(s.log, w) == [])
            && (forall i :: 0 <= i < |s.log| ==> s.log[i].writer < |batches|)
  {
    BeginOk(batches);
    RunKeepsRaceOk(batches, Begin(batches), moves);
    var s := RunRace(batches, Begin(batches), moves);
    assert WriterOk(batches, s, w);
    var events := EventsFor(batches, w);
    EventsReplay(batches[w], w, |events|);
    assert events[..|events|] == events;
    assert Visible(batches[w])[..|events|] == Visible(batches[w]);
  }

  // ---- Refused too early ----

  // The move by which a writer loses without a fault of its own is exactly an append
  // that arrives while the session is still not there.
  lemma LosesExactlyWhen(batches: Batches, s: Race, m: Move)
    requires RaceOk(batches, s) && Enabled(batches, s, m) && !m.SettleStray?
    ensures var t, w := Moved(batches, s, m), m.writer;
            && |t.phases| == |batches|
            && (t.phases[w].GaveUp? && w !in t.faulted
                <==> && m.Advance? && !m.outcome.FailEarly? && !s.present
                     && s.phases[w].Writing? && s.phases[w].pos < |EventsFor(batches, w)|)
            && (t.phases[w].GaveUp? && w !in t.faulted ==> w in s.refused)
  {
    assert WriterOk(batches, s, m.writer);
    hide EventsFor, Restricted;
  }

  predicate NoRefusal(moves: seq<Move>) {
    forall i :: 0 <= i < |moves| ==> !moves[i].Refuse?
  }

  // When the service refuses only what is there, no writer is told too early, so every
  // promise above is kept to all of them.
  lemma {:induction false} NobodyRefused(batches: Batches, s: Race, moves: seq<Move>)
    requires RaceOk(batches, s) && s.refused == {} && NoRefusal(moves)
    ensures RunRace(batches, s, moves).refused == {}
    decreases |moves|
  {
    if moves != [] {
      assert !moves[0].Refuse?;
      assert forall i :: 0 <= i < |moves[1..]| ==> !moves[1..][i].Refuse? by {
        assert forall i :: 0 <= i < |moves[1..]| ==> moves[1..][i] == moves[i + 1];
      }
      if Enabled(batches, s, moves[0]) {
        MoveKeepsRaceOk(batches, s, moves[0]);
        NobodyRefused(batches, Moved(batches, s, moves[0]), moves[1..]);
      } else {
        NobodyRefused(batches, s, moves[1..]);
      }
    }
  }

  // With no such refusal nobody fails but by a fault of its own, and the session is
  // there as soon as one writer with something to say is done.
  lemma NoRefusalNoLoser(batches: Batches, moves: seq<Move>, w: nat)
    requires NoRefusal(moves) && w < |batches|
    ensures var s := RunRace(batches, Begin(batches), moves);
            && |s.phases| == |batches|
            && (s.phases[w].GaveUp? <==> w in s.faulted)
            && (s.phases[w].Done? && batches[w] != [] ==> s.creations == 1)
  {
    BeginOk(batches);
    NobodyRefused(batches, Begin(batches), moves);
    NobodyLosesTheRace(batches, moves, w);
    hide RunRace, RaceOk, NoRefusal;
  }

  // Otherwise two writers are enough: both find nothing, the first one's create is
  // accepted, the second's is refused on its account, and its append finds no session.
  lemma RefusedTooEarlyLoses(batches: Batches)
    requires |batches| == 2 && EventsFor(batches, 0) != [] && EventsFor(batches, 1) != []
    ensures var s := RunRace(batches, Begin(batches),
                             [Advance(0, Fine), Advance(1, Fine), Advance(0, Fine), Refuse(1), Advance(1, Fine)]);
            && |s.phases| == 2 && s.phases[1] == GaveUp(0) && s.faulted == {} && s.log == []
  {
    assert batches[0] != [] && batches[1] != [];
    var s0 := Begin(batches);
    var s1 := Moved(batches, s0, Advance(0, Fine));
    var s2 := Moved(batches, s1, Advance(1, Fine));
    var s3 := Moved(batches, s2, Advance(0, Fine));
    assert s3.phases == [Waiting(Pending), Absent];
    assert OthersPending(s3, 1) by {
      assert s3.phases[0] == Waiting(Pending);
    }
    var s4 := Moved(batches, s3, Refuse(1));
    assert s4.phases == [Waiting(Pending), Writing(0)] && !s4.present;
    var s5 := Moved(batches, s4, Advance(1, Fine));
    RunFive(batches, s0, s1, s2, s3, s4, Advance(0, Fine), Advance(1, Fine), Advance(0, Fine), Refuse(1),
            Advance(1, Fine));
  }

  lemma RunFive(
    batches: Batches, s0: Race, s1: Race, s2: Race, s3: Race, s4: Race, a: Move, b: Move, c: Move, d: Move, e: Move
  )
    requires Enabled(batches, s0, a) && s1 == Moved(batches, s0, a)
    requires Enabled(batches, s1, b) && s2 == Moved(batches, s1, b)
    requires Enabled(batches, s2, c) && s3 == Moved(batches, s2, c)
    requires Enabled(batches, s3, d) && s4 == Moved(batches, s3, d)
    requires Enabled(batches, s4, e)
    ensures RunRace(batches, s0, [a, b, c, d, e]) == Moved(batches, s4, e)
  {
    hide Moved, Enabled;
    assert [a, b, c, d, e][1..] == [b, c, d, e] && [b, c, d, e][1..] == [c, d, e] && [c, d, e][1..] == [d, e];
    assert [d, e][1..] == [e] && [e][1..] == [];
    assert RunRace(batches, s4, [e]) == Moved(batches, s4, e);
    assert RunRace(batches, s3, [d, e]) == RunRace(batches, s4, [e]);
    assert RunRace(batches, s2, [c, d, e]) == RunRace(batches, s3, [d, e]);
    assert RunRace(batches, s1, [b, c, d, e]) == RunRace(batches, s2, [c, d, e]);
  }

  // ---- Progress ----

  function Rank(batches: Batches, w: nat, phase: Phase): nat
    requires w < |batches|
  {
    var n := |EventsFor(batches, w)|;
    match phase
    case Start => n + 6
    case Absent => n + 5
    case Waiting(creation) => if creation.Pending? then n + 4 else n + 3
    case Writing(pos) => if pos <= n then n - pos + 2 else 2
    case Done => 0
    case GaveUp(_) => 0
  }

  function Ranks(batches: Batches, phases: seq<Phase>, k: nat): nat
    requires k <= |phases| == |batches|
  {
    if k == 0 then 0 else Ranks(batches, phases, k - 1) + Rank(batches, k - 1, phases[k - 1])
  }

  function Left(batches: Batches, s: Race): nat
    requires |s.phases| == |batches|
  {
    Ranks(batches, s.phases, |batches|) + s.strays
  }

  lemma {:induction false} RanksUpdate(batches: Batches, phases: seq<Phase>, w: nat, phase: Phase, k: nat)
    requires k <= |phases| == |batches| && w < |phases|
    ensures Ranks(batches, phases[w := phase], k) + (if w < k then Rank(batches, w, phases[w]) else 0)
            == Ranks(batches, phases, k) + (if w < k then Rank(batches, w, phase) else 0)
  {
    if k > 0 {
      RanksUpdate(batches, phases, w, phase, k - 1);
    }
  }

  lemma MoverSteps(batches: Batches, s: Race, m: Move)
    requires RaceOk(batches, s) && Enabled(batches, s, m) && !m.SettleStray?
    ensures var t, w := Moved(batches, s, m), m.writer;
            && t.phases == s.phases[w := t.phases[w]]
            && Rank(batches, w, t.phases[w]) + t.strays < Rank(batches, w, s.phases[w]) + s.strays
  {
    var w := m.writer;
    assert WriterOk(batches, s, w);
    hide EventsFor, WriterOk, RaceOk, Restricted;
    if m.Advance? && s.phases[w].Writing? && s.phases[w].pos < |EventsFor(batches, w)| {
      WriterSteps(batches, s, w, s.phases[w].pos, m.outcome);
      hide Appending;
    }
  }

  lemma WriterSteps(batches: Batches, s: Race, w: nat, pos: nat, outcome: Outcome)
    requires w < |s.phases| == |batches| && s.phases[w] == Writing(pos) && pos < |EventsFor(batches, w)|
    ensures var t := Appending(batches, s, w, pos, outcome);
            && t.phases == s.phases[w := t.phases[w]] && t.strays == s.strays
            && Rank(batches, w, t.phases[w]) < Rank(batches, w, s.phases[w])
  {
    hide EventsFor;
  }

  // Every possible move brings the race closer to its end.
  lemma MoveMakesProgress(batches: Batches, s: Race, m: Move)
    requires RaceOk(batches, s) && Enabled(batches, s, m)
    ensures |Moved(batches, s, m).phases| == |batches|
    ensures Left(batches, Moved(batches, s, m)) < Left(batches, s)
  {
    if !m.SettleStray? {
      MoverSteps(batches, s, m);
      RanksUpdate(batches, s.phases, m.writer, Moved(batches, s, m).phases[m.writer], |batches|);
      hide Moved, Rank, Ranks;
    }
  }

  // Until every writer is done or has failed, something can happen without a fault.
  lemma NeverStuck(batches: Batches, s: Race, w: nat)
    requires RaceOk(batches, s) && w < |batches| && !s.phases[w].Done? && !s.phases[w].GaveUp?
    ensures Enabled(batches, s, Advance(w, Fine)) || Enabled(batches, s, Settle(w))
  {
    assert WriterOk(batches, s, w);
  }

  // A schedule of possible moves only.
  predicate AllEnabled(batches: Batches, s: Race, moves: seq<Move>)
    decreases |moves|
  {
    moves == [] || (Enabled(batches, s, moves[0]) && AllEnabled(batches, Moved(batches, s, moves[0]), moves[1..]))
  }

  // So no schedule runs for ever.
  lemma {:induction false} RaceEnds(batches: Batches, s: Race, moves: seq<Move>)
    requires RaceOk(batches, s) && AllEnabled(batches, s, moves)
    ensures |moves| <= Left(batches, s)
    decreases |moves|
  {
    if moves != [] {
      MoveMakesProgress(batches, s, moves[0]);
      MoveKeepsRaceOk(batches, s, moves[0]);
      RaceEnds(batches, Moved(batches, s, moves[0]), moves[1..]);
    }
  }

  // One that can go no further has every writer done with its whole batch, failed by a
  // fault of its own, or told too early and empty-handed.
  lemma StuckMeansOver(batches: Batches, moves: seq<Move>, w: nat)
    requires w < |batches|
    requires var s := RunRace(batches, Begin(batches), moves); forall m :: !Enabled(batches, s, m)
    ensures var s := RunRace(batches, Begin(batches), moves);
            && |s.phases| == |batches|
            && (w in s.faulted ==> s.phases[w].GaveUp?)
            && (w !in s.faulted ==>
                  || (s.phases[w].Done? && Restricted(s.log, w) == EventsFor(batches, w))
                  || (w in s.refused && s.phases[w] == GaveUp(0) && Restricted(s.log, w) == []))
  {
    BeginOk(batches);
    RunKeepsRaceOk(batches, Begin(batches), moves);
    var s := RunRace(batches, Begin(batches), moves);
    assert WriterOk(batches, s, w);
    NobodyLosesTheRace(batches, moves, w);
    if !s.phases[w].Done? && !s.phases[w].GaveUp? {
      NeverStuck(batches, s, w);
    }
  }

  // A writer that got through the race has added to the log exactly what appending
  // the same batch alone, with no fault, adds to a service's log.
  lemma EachAsIfAlone(batches: Batches, moves: seq<Move>, w: nat, alone: Service, id: string)
    requires w < |batches| && FaultFree(alone)
    ensures var s := RunRace(batches, Begin(batches), moves);
            && |s.phases| == |batches|
            && (s.phases[w].Done?
                ==> LogOf(MessagesAppended(alone, id, batches[w], w).0, id) == LogOf(alone, id) + Restricted(s.log, w))
  {
    NobodyLosesTheRace(batches, moves, w);
    FaultFreeAppend(alone, id, batches[w], w);
    var k := AppendOutcome(alone, id, batches[w], w);
    assert EventsFor(batches, w)[..|EventsFor(batches, w)|] == EventsFor(batches, w);
  }
}

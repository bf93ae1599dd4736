/** Which writers of a whole schedule of the race lose their messages without a fault. */
module RaceSchedules {
  import opened SessionStore
  import opened SessionFacts
  import opened SessionRace

  // ---- Which writers of a schedule lose ----

  ghost function After(batches: Batches, moves: seq<Move>, i: nat): Race
    requires i <= |moves|
  {
    RunRace(batches, Begin(batches), moves[..i])
  }

  function Stepped(batches: Batches, s: Race, m: Move): Race {
    if Enabled(batches, s, m) then Moved(batches, s, m) else s
  }

  lemma {:induction false} RaceSnoc(batches: Batches, s: Race, moves: seq<Move>, m: Move)
    ensures RunRace(batches, s, moves + [m]) == Stepped(batches, RunRace(batches, s, moves), m)
    decreases |moves|
  {
    hide Moved, Enabled;
    if moves == [] {
      assert ([] + [m])[1..] == [];
    } else {
      assert (moves + [m])[1..] == moves[1..] + [m];
      RaceSnoc(batches, Stepped(batches, s, moves[0]), moves[1..], m);
    }
  }

  // At this move a create that was accepted, or lost on the way, settles.
  ghost predicate SettlesAt(batches: Batches, moves: seq<Move>, i: nat) {
    i < |moves| && Enabled(batches, After(batches, moves, i), moves[i]) && (moves[i].Settle? || moves[i].SettleStray?)
  }

  // At this move the writer's first event reaches the service.
  ghost predicate FirstAppendAt(batches: Batches, moves: seq<Move>, w: nat, i: nat) {
    && w < |batches| && i < |moves| && moves[i].Advance? && moves[i].writer == w && !moves[i].outcome.FailEarly?
    && var s := After(batches, moves, i);
       w < |s.phases| && s.phases[w] == Writing(0) && EventsFor(batches, w) != []
  }

  // Its first event arrives before any create has settled.
  ghost predicate EarlyAppendAt(batches: Batches, moves: seq<Move>, w: nat, i: nat) {
    FirstAppendAt(batches, moves, w, i) && forall j :: 0 <= j < i ==> !SettlesAt(batches, moves, j)
  }

  ghost predicate TooEarly(batches: Batches, moves: seq<Move>, w: nat) {
    exists i: nat :: EarlyAppendAt(batches, moves, w, i)
  }

  lemma PrefixAfter(batches: Batches, moves: seq<Move>, m: Move, i: nat)
    requires i <= |moves|
    ensures After(batches, moves + [m], i) == After(batches, moves, i)
    ensures After(batches, moves, |moves|) == RunRace(batches, Begin(batches), moves)
  {
    assert (moves + [m])[..i] == moves[..i] && moves[..|moves|] == moves;
  }

  lemma SettlesBefore(batches: Batches, moves: seq<Move>, m: Move)
    ensures forall i :: 0 <= i < |moves| ==> (SettlesAt(batches, moves + [m], i) <==> SettlesAt(batches, moves, i))
    ensures SettlesAt(batches, moves + [m], |moves|)
            <==> && Enabled(batches, RunRace(batches, Begin(batches), moves), m) && (m.Settle? || m.SettleStray?)
  {
    hide RunRace, Enabled;
    forall i | 0 <= i <= |moves|
      ensures After(batches, moves + [m], i) == After(batches, moves, i)
    {
      PrefixAfter(batches, moves, m, i);
    }
    PrefixAfter(batches, moves, m, |moves|);
    hide After;
  }

  // The session is there exactly when some create has settled.
  lemma {:induction false} PresentExactlyWhen(batches: Batches, moves: seq<Move>)
    ensures RunRace(batches, Begin(batches), moves).present <==> exists i: nat :: SettlesAt(batches, moves, i)
    decreases |moves|
  {
    if moves != [] {
      var before, m := moves[..|moves| - 1], moves[|moves| - 1];
      assert moves == before + [m];
      PresentExactlyWhen(batches, before);
      RaceSnoc(batches, Begin(batches), before, m);
      SettlesBefore(batches, before, m);
      var s := RunRace(batches, Begin(batches), before);
      hide RunRace, EventsFor, SettlesAt;
      StepPresent(batches, s, m);
    }
  }

  lemma StepPresent(batches: Batches, s: Race, m: Move)
    ensures Stepped(batches, s, m).present
            <==> s.present || (Enabled(batches, s, m) && (m.Settle? || m.SettleStray?))
  {
    hide EventsFor;
  }

  // ---- Losing ----

  // The writer failed, and not by a fault of its own.
  predicate Loses(s: Race, w: nat) {
    w < |s.phases| && s.phases[w].GaveUp? && w !in s.faulted
  }

  // One move makes it so exactly when it is that first append, with no session there.
  lemma StepLoses(batches: Batches, s: Race, m: Move, w: nat)
    requires RaceOk(batches, s) && w < |batches|
    ensures var t := Stepped(batches, s, m);
            RaceOk(batches, t)
            && (Loses(t, w)
                <==> || Loses(s, w)
                     || (&& m.Advance? && m.writer == w && !m.outcome.FailEarly? && s.phases[w] == Writing(0)
                         && EventsFor(batches, w) != [] && !s.present))
  {
    assert WriterOk(batches, s, w);
    if Enabled(batches, s, m) {
      MoveKeepsRaceOk(batches, s, m);
      MoveKeepsShape(batches, s, m);
      if !m.SettleStray? && m.writer == w {
        LosesExactlyWhen(batches, s, m);
      }
    }
    hide EventsFor, Moved, Restricted;
  }

  lemma AppendsBefore(batches: Batches, moves: seq<Move>, m: Move, w: nat)
    requires w < |batches|
    ensures forall i :: 0 <= i < |moves|
                        ==> (FirstAppendAt(batches, moves + [m], w, i) <==> FirstAppendAt(batches, moves, w, i))
    ensures FirstAppendAt(batches, moves + [m], w, |moves|)
            <==> && m.Advance? && m.writer == w && !m.outcome.FailEarly?
                 && var s := RunRace(batches, Begin(batches), moves);
                    w < |s.phases| && s.phases[w] == Writing(0) && EventsFor(batches, w) != []
  {
    hide RunRace, EventsFor;
    forall i | 0 <= i <= |moves|
      ensures After(batches, moves + [m], i) == After(batches, moves, i)
    {
      PrefixAfter(batches, moves, m, i);
    }
    PrefixAfter(batches, moves, m, |moves|);
    hide After;
  }

  // At this move of a longer schedule it is too early exactly when it was in the shorter
  // one, or the new move is the one.
  lemma EarlyAt(batches: Batches, moves: seq<Move>, m: Move, w: nat, i: nat)
    requires w < |batches|
    ensures EarlyAppendAt(batches, moves + [m], w, i)
            <==> if i < |moves| then EarlyAppendAt(batches, moves, w, i)
                 else && i == |moves| && FirstAppendAt(batches, moves + [m], w, i)
                      && !RunRace(batches, Begin(batches), moves).present
  {
    PresentExactlyWhen(batches, moves);
    SettlesBefore(batches, moves, m);
    AppendsBefore(batches, moves, m, w);
    assert forall j: nat :: SettlesAt(batches, moves, j) ==> j < |moves|;
    assert FirstAppendAt(batches, moves + [m], w, i) ==> i <= |moves|;
    hide FirstAppendAt, SettlesAt, RunRace;
  }

  lemma TooEarlyOneMore(batches: Batches, moves: seq<Move>, m: Move, w: nat)
    requires w < |batches|
    ensures var s := RunRace(batches, Begin(batches), moves);
            TooEarly(batches, moves + [m], w)
            <==> TooEarly(batches, moves, w) || (FirstAppendAt(batches, moves + [m], w, |moves|) && !s.present)
  {
    forall i: nat
      ensures EarlyAppendAt(batches, moves + [m], w, i)
              <==> if i < |moves| then EarlyAppendAt(batches, moves, w, i)
                   else && i == |moves| && FirstAppendAt(batches, moves + [m], w, i)
                        && !RunRace(batches, Begin(batches), moves).present
      ensures EarlyAppendAt(batches, moves, w, i) ==> i < |moves|
    {
      EarlyAt(batches, moves, m, w, i);
    }
    hide EarlyAppendAt, FirstAppendAt, RunRace;
  }

  // In every schedule: a writer fails without a fault of its own exactly when its first
  // event arrives before any create has settled.
  lemma {:induction false} LosersExactly(batches: Batches, moves: seq<Move>, w: nat)
    requires w < |batches|
    ensures var s := RunRace(batches, Begin(batches), moves);
            RaceOk(batches, s) && (Loses(s, w) <==> TooEarly(batches, moves, w))
    decreases |moves|
  {
    if moves == [] {
      BeginOk(batches);
      assert forall i: nat :: !EarlyAppendAt(batches, moves, w, i);
    } else {
      var before, m := moves[..|moves| - 1], moves[|moves| - 1];
      assert moves == before + [m];
      LosersExactly(batches, before, w);
      RaceSnoc(batches, Begin(batches), before, m);
      TooEarlyOneMore(batches, before, m, w);
      AppendsBefore(batches, before, m, w);
      var s := RunRace(batches, Begin(batches), before);
      assert w < |s.phases|;
      hide RunRace, RaceOk, TooEarly, Loses, FirstAppendAt, EventsFor, Stepped;
      StepLoses(batches, s, m, w);
    }
  }

  // So once a writer with something to say and no fault of its own has finished, its
  // messages are all there, or, in exactly that case, none is.
  lemma FinishedExactly(batches: Batches, moves: seq<Move>, w: nat)
    requires w < |batches| && EventsFor(batches, w) != []
    requires var s := RunRace(batches, Begin(batches), moves);
             |s.phases| == |batches| && (s.phases[w].Done? || s.phases[w].GaveUp?) && w !in s.faulted
    ensures var s := RunRace(batches, Begin(batches), moves);
            Restricted(s.log, w) == if TooEarly(batches, moves, w) then [] else EventsFor(batches, w)
  {
    LosersExactly(batches, moves, w);
    NobodyLosesTheRace(batches, moves, w);
    hide RunRace, RaceOk, TooEarly, EventsFor, Restricted;
  }
}

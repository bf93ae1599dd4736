/** Which texts a turn sends, and when it is answered by status, read off its chunks. */
module StreamTexts {
  import opened Texts
  import opened StreamHandoff

  // The chunks before n that hold some text, in order.
  ghost predicate PlacesOf(turn: Turn, n: nat, texts: seq<string>, places: seq<nat>) {
    && |places| == |texts|
    && (forall k :: 0 <= k < |places| ==> places[k] < |turn.chunks| && turn.chunks[places[k]] == Text(texts[k]))
    && (forall j, k :: 0 <= j < k < |places| ==> places[j] < places[k])
    && (forall i: nat :: i in places
                         <==> i < n && i < |turn.chunks| && turn.chunks[i].Text? && turn.chunks[i].text != "")
  }

  lemma PlacesSnoc(turn: Turn, n: nat, texts: seq<string>, places: seq<nat>)
    requires n < |turn.chunks| && PlacesOf(turn, n, texts, places)
    ensures if turn.chunks[n].Text? && turn.chunks[n].text != ""
            then PlacesOf(turn, n + 1, texts + [turn.chunks[n].text], places + [n])
            else PlacesOf(turn, n + 1, texts, places)
  {
    assert forall k :: 0 <= k < |places| ==> places[k] in places && places[k] < n;
  }

  lemma NoPlaces(turn: Turn)
    ensures PlacesOf(turn, 0, [], [])
  {}

  lemma {:induction false} TextsPlaces(turn: Turn, n: nat) returns (places: seq<nat>)
    requires n <= |turn.chunks|
    ensures PlacesOf(turn, n, TextsUpTo(turn, n), places)
  {
    hide PlacesOf;
    if n == 0 {
      NoPlaces(turn);
      return [];
    }
    var before := TextsUpTo(turn, n - 1);
    assert before + [] == before;
    places := TextsPlaces(turn, n - 1);
    PlacesSnoc(turn, n - 1, before, places);
    if turn.chunks[n - 1].Text? && turn.chunks[n - 1].text != "" {
      places := places + [n - 1];
    }
  }

  // No error has come up to this chunk.
  predicate NoErrorUpTo(turn: Turn, i: nat) {
    turn.setupError.None? && forall j :: 0 <= j <= i && j < |turn.chunks| ==> !turn.chunks[j].ErrorChunk?
  }

  // This chunk is text, not empty, and before the first error.
  predicate Said(turn: Turn, i: nat) {
    i < |turn.chunks| && NoErrorUpTo(turn, i) && turn.chunks[i].Text? && turn.chunks[i].text != ""
  }

  // The texts a caller should see are exactly the non-empty text chunks before the
  // first error, each once and in order.
  lemma AllTextsExactly(turn: Turn) returns (places: seq<nat>)
    ensures |places| == |AllTexts(turn)|
    ensures forall k :: 0 <= k < |places|
                        ==> places[k] < |turn.chunks| && turn.chunks[places[k]] == Text(AllTexts(turn)[k])
    ensures forall j, k :: 0 <= j < k < |places| ==> places[j] < places[k]
    ensures forall i: nat :: i in places <==> Said(turn, i)
  {
    if turn.setupError.Some? {
      return [];
    }
    var n := StopsAt(turn, 0);
    StopsAtIsFirst(turn, 0);
    places := TextsPlaces(turn, n);
    forall i: nat | i < |turn.chunks|
      ensures NoErrorUpTo(turn, i) <==> i < n
    {
      if i >= n {
        assert turn.chunks[n].ErrorChunk?;
      }
    }
  }

  // The turn failed and had nothing to say: setting it up failed, or the first error has
  // only empty text and other chunks ahead of it.
  ghost predicate FailsSilently(turn: Turn) {
    turn.setupError.Some? || exists k :: SilentUntil(turn, k)
  }

  predicate SilentUntil(turn: Turn, k: nat) {
    && k < |turn.chunks| && turn.chunks[k].ErrorChunk?
    && forall j :: 0 <= j < k ==> turn.chunks[j].OtherChunk? || turn.chunks[j] == Text("")
  }

  lemma SilentSaysNothing(turn: Turn, k: nat)
    requires SilentUntil(turn, k)
    ensures forall i: nat :: !Said(turn, i)
  {}

  lemma HeadIsIn(places: seq<nat>)
    ensures |places| > 0 ==> places[0] in places
  {}

  lemma SilentExactly(turn: Turn)
    ensures FailsSilently(turn) <==> AllTexts(turn) == [] && OwnError(turn).Some?
  {
    if turn.setupError.None? {
      var places := AllTextsExactly(turn);
      StopsAtIsFirst(turn, 0);
      var n := StopsAt(turn, 0);
      if k: nat :| SilentUntil(turn, k) {
        SilentSaysNothing(turn, k);
        HeadIsIn(places);
      } else if AllTexts(turn) == [] && OwnError(turn).Some? {
        forall j: nat | j < n
          ensures turn.chunks[j].OtherChunk? || turn.chunks[j] == Text("")
        {
          assert NoErrorUpTo(turn, j) && j !in places;
        }
        assert SilentUntil(turn, n);
      }
    }
  }

  // In every interleaving no empty text becomes a line; and once the writer is done, no
  // write having failed and the client having stayed, the status is 500 exactly when the
  // turn failed silently, with no line at all, and 200 otherwise.
  lemma StatusTellsSilence(turn: Turn, moves: seq<Move>)
    ensures var s := RunStream(turn, Opened(), moves);
            && (forall k :: 0 <= k < |s.lines| ==> s.lines[k] != Output(""))
            && (WriterDone(s.consumer) && !s.leftEarly && !s.broken
                ==> if FailsSilently(turn) then s.status == Some(500) && s.lines == [] else s.status == Some(200))
  {
    StreamTellsTheTruth(turn, moves);
    SilentExactly(turn);
    var s := RunStream(turn, Opened(), moves);
    hide RunStream, FailsSilently, OwnError;
    NoEmptyLine(turn, s.lines);
    hide AllTexts, LinesOf;
  }

  lemma NoEmptyLine(turn: Turn, lines: seq<Line>)
    requires LinesOf(turn, lines)
    ensures forall k :: 0 <= k < |lines| ==> lines[k] != Output("")
  {
    var places := AllTextsExactly(turn);
    var all := AllTexts(turn);
    forall k | 0 <= k < |all|
      ensures all[k] != ""
    {
      assert places[k] in places;
    }
    hide AllTexts;
    var n: nat, tail: seq<Line> :| n <= |all| && lines == Outputs(all[..n]) + tail
                                   && |tail| <= 1 && (tail != [] ==> tail[0].ErrorLine? && n > 0);
  }
}

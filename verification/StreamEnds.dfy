/** The two ends of the streaming hand-off as the loops they are, each seen from its own
    side of the channels (cmd/vertex-runtime/turn.go, streamTurn, and
    cmd/vertex-runtime/handlers.go, writeStream). */
module StreamEnds {
  import opened Texts
  import opened StreamHandoff

  // ---- The producer ----

  // done(i) says whether the context wins the select on chunk i. The texts sent are
  // those before the first lost select, and with none lost the turn ends on its own terms.
  method StreamTurn(turn: Turn, done: nat -> bool) returns (sent: seq<string>, err: Option<TurnError>)
    ensures sent <= AllTexts(turn) && forall k :: 0 <= k < |sent| ==> sent[k] != ""
    ensures (forall i :: 0 <= i < StopsAt(turn, 0) && Sends(turn, i) ==> !done(i))
            ==> sent == AllTexts(turn) && err == OwnError(turn)
    ensures turn.setupError.None? && (exists i :: 0 <= i < StopsAt(turn, 0) && Sends(turn, i) && done(i))
            ==> err == Some(ContextDone)
  {
    sent := [];
    StopsAtIsFirst(turn, 0);
    if turn.setupError.Some? {
      return [], Some(FromTurn(turn.setupError.value));
    }
    var i := 0;
    while i < |turn.chunks|
      invariant 0 <= i <= StopsAt(turn, 0)
      invariant sent == TextsUpTo(turn, i)
      invariant forall k :: 0 <= k < |sent| ==> sent[k] != ""
      invariant forall j :: 0 <= j < i && Sends(turn, j) ==> !done(j)
    {
      TextsGrow(turn, i, StopsAt(turn, 0));
      if turn.chunks[i].ErrorChunk? {
        return sent, Some(FromTurn(turn.chunks[i].error));
      }
      if !turn.chunks[i].Text? || turn.chunks[i].text == "" {
        i := i + 1;
        continue;
      }
      if done(i) {
        return sent, Some(ContextDone);
      }
      sent := sent + [turn.chunks[i].text];
      i := i + 1;
    }
    err := None;
  }

  // ---- The writer ----

  /** The response, where write number k works unless fails(k). */
  class ResponseWriter {
    var status: Option<int>
    var lines: seq<Line>
    var writes: nat
    const fails: nat -> bool

    constructor (fails: nat -> bool)
      ensures status == None && lines == [] && writes == 0 && this.fails == fails
    {
      status, lines, writes, this.fails := None, [], 0, fails;
    }

    // Only the first status counts.
    method WriteHeader(code: int)
      modifies this`status
      ensures status == if old(status).None? then Some(code) else old(status)
    {
      if status.None? {
        status := Some(code);
      }
    }

    method EncodeLine(line: Line) returns (ok: bool)
      modifies this`lines, this`writes
      ensures ok == !fails(old(writes)) && writes == old(writes) + 1
      ensures lines == if ok then old(lines) + [line] else old(lines)
    {
      ok := !fails(writes);
      writes := writes + 1;
      if ok {
        lines := lines + [line];
      }
    }
  }

  // No write up to number n fails.
  ghost predicate Works(w: ResponseWriter, n: nat) {
    forall k :: 0 <= k < n ==> !w.fails(k)
  }

  // What the data channel delivers and then the error channel. With every write
  // working, the response is the whole one; a writer that fails first at text k has
  // written exactly the texts before it.
  method WriteStream(w: ResponseWriter, texts: seq<string>, err: Option<TurnError>)
    requires w.status == None && w.lines == [] && w.writes == 0
    modifies w
    ensures w.status.Some?
    ensures Works(w, |texts| + 1) ==> Response(w.status.value, w.lines) == ResponseTo(texts, err)
    ensures forall k :: 0 <= k < |texts| && Works(w, k) && w.fails(k)
                        ==> w.status == Some(STATUS_OK) && w.lines == Outputs(texts[..k])
    ensures Works(w, |texts|) && w.fails(|texts|) && texts != []
            ==> w.status == Some(STATUS_OK) && w.lines == Outputs(texts)
  {
    var wroteHeader := false;
    var i := 0;
    while i < |texts|
      invariant 0 <= i <= |texts| && w.writes == i && Works(w, i)
      invariant w.lines == Outputs(texts[..i])
      invariant wroteHeader <==> i > 0
      invariant w.status == if i == 0 then None else Some(STATUS_OK)
    {
      if !wroteHeader {
        w.WriteHeader(STATUS_OK);
        wroteHeader := true;
      }
      var ok := w.EncodeLine(Output(texts[i]));
      if !ok {
        return;
      }
      OutputsSnoc(texts[..i], texts[i]);
      assert texts[..i] + [texts[i]] == texts[..i + 1];
      i := i + 1;
    }
    assert texts[..|texts|] == texts;
    if err.None? {
      if !wroteHeader {
        w.WriteHeader(STATUS_OK);
      }
      return;
    }
    if !wroteHeader {
      w.WriteHeader(STATUS_ERROR);
      return;
    }
    var ok := w.EncodeLine(ErrorLine(err.value));
  }

  // Put together with nothing lost and nothing failing, the two loops produce the
  // response of every unbroken interleaving whose client stays.
  method Stream(turn: Turn, w: ResponseWriter)
    requires w.status == None && w.lines == [] && w.writes == 0 && forall k :: !w.fails(k)
    modifies w
    ensures w.status.Some? && Response(w.status.value, w.lines) == ResponseTo(AllTexts(turn), OwnError(turn))
  {
    var texts, err := StreamTurn(turn, _ => false);
    WriteStream(w, texts, err);
  }
}

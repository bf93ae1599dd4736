/** The streaming hand-off: a producer goroutine (cmd/vertex-runtime/turn.go,
    newStreamFunc and streamTurn) and an HTTP writer (cmd/vertex-runtime/handlers.go,
    writeStream) sharing an unbuffered data channel, a one-slot error channel and a
    context, stepped in every interleaving. */
module StreamHandoff {
  import opened Texts

  const STATUS_OK := 200
  const STATUS_ERROR := 500

  // What one step of the model's stream yields: text, something else, or an error.
  datatype Chunk = Text(text: string) | OtherChunk | ErrorChunk(error: string)

  // One turn: setting it up may fail before anything is streamed.
  datatype Turn = Turn(setupError: Option<string>, chunks: seq<Chunk>)

  datatype TurnError = FromTurn(error: string) | ContextDone

  datatype Producer =
    | SettingUp
    | Looping(i: nat)
    | Sending(i: nat)
    | Returning(err: Option<TurnError>)
    | ClosingErrors
    | ClosingData
    | Ended

  datatype Consumer = Receiving | Encoding(text: string) | AwaitingError | Finished | Gone

  datatype Line = Output(text: string) | ErrorLine(err: TurnError)

  // handed, taken, broken and leftEarly are history: the texts that crossed the data
  // channel, what the writer read from the error channel, whether a write failed, and
  // whether the client cancelled while the writer was still at work.
  datatype Stream = Stream(
    producer: Producer,
    consumer: Consumer,
    slot: Option<TurnError>,
    errorsClosed: bool,
    dataClosed: bool,
    cancelled: bool,
    status: Option<int>,
    lines: seq<Line>,
    handed: seq<string>,
    taken: Option<Option<TurnError>>,
    broken: bool,
    leftEarly: bool
  )

  function Opened(): Stream {
    Stream(SettingUp, Receiving, None, false, false, false, None, [], [], None, false, false)
  }

  datatype Move =
    | Produce
    | GiveUp
    | HandOver
    | SeeClosed
    | Encode(ok: bool)
    | ReadError(ok: bool)
    | ClientCancels
    | ServerCancels

  // The chunk at i is one the producer sends.
  predicate Sends(turn: Turn, i: nat) {
    i < |turn.chunks| && turn.chunks[i].Text? && turn.chunks[i].text != ""
  }

  predicate WriterDone(c: Consumer) {
    c.Finished? || c.Gone?
  }

  predicate Enabled(turn: Turn, s: Stream, m: Move) {
    match m
    // The error slot has room for the one error there is, so only a send can block.
    case Produce => !s.producer.Sending? && !s.producer.Ended? && (s.producer.Returning? && s.producer.err.Some?
        ==> s.slot.None?)
    case GiveUp => s.producer.Sending? && s.cancelled
    case HandOver => s.producer.Sending? && Sends(turn, s.producer.i) && s.consumer.Receiving?
    case SeeClosed => s.consumer.Receiving? && s.dataClosed
    case Encode(_) => s.consumer.Encoding?
    case ReadError(_) => s.consumer.AwaitingError? && (s.slot.Some? || s.errorsClosed)
    case ClientCancels => !s.cancelled
    case ServerCancels => !s.cancelled && WriterDone(s.consumer)
  }

  // Where the producer's next own step takes it.
  function StepFrom(turn: Turn, p: Producer): Producer {
    match p
    case SettingUp => if turn.setupError.Some? then Returning(Some(FromTurn(turn.setupError.value))) else Looping(0)
    case Looping(i) =>
      if i >= |turn.chunks| then Returning(None)
      else if turn.chunks[i].ErrorChunk? then Returning(Some(FromTurn(turn.chunks[i].error)))
      else if !Sends(turn, i) then Looping(i + 1)
      else Sending(i)
    case Returning(_) => ClosingErrors
    case ClosingErrors => ClosingData
    case ClosingData => Ended
    case _ => p
  }

  // On the way out an error goes into the slot, then the error channel closes, then
  // the data channel.
  function Produced(turn: Turn, s: Stream): Stream {
    s.(producer := StepFrom(turn, s.producer),
       slot := if s.producer.Returning? && s.producer.err.Some? then s.producer.err else s.slot,
       errorsClosed := s.errorsClosed || s.producer.ClosingErrors?,
       dataClosed := s.dataClosed || s.producer.ClosingData?)
  }

  // The status goes out with the first line; later it cannot change.
  function WithStatus(s: Stream, status: int): Stream {
    if s.status.None? then s.(status := Some(status)) else s
  }

  function ErrorRead(s: Stream, ok: bool): Stream {
    var t := s.(consumer := Finished, slot := None, taken := Some(s.slot));
    match s.slot
    case None => WithStatus(t, STATUS_OK)
    case Some(e) =>
      if s.status.None? then WithStatus(t, STATUS_ERROR)
      else if ok then t.(lines := s.lines + [ErrorLine(e)])
      else t.(broken := true)
  }

  // One line more, or the writer gives up.
  function Encoded(s: Stream, text: string, ok: bool): Stream {
    var t := WithStatus(s, STATUS_OK);
    if ok then t.(consumer := Receiving, lines := s.lines + [Output(text)]) else t.(consumer := Gone, broken := true)
  }

  function Moved(turn: Turn, s: Stream, m: Move): Stream
    requires Enabled(turn, s, m)
  {
    match m
    case Produce => Produced(turn, s)
    case GiveUp => s.(producer := Returning(Some(ContextDone)))
    case HandOver =>
      var text := turn.chunks[s.producer.i].text;
      s.(producer := Looping(s.producer.i + 1), consumer := Encoding(text), handed := s.handed + [text])
    case SeeClosed => s.(consumer := AwaitingError)
    case Encode(ok) => Encoded(s, s.consumer.text, ok)
    case ReadError(ok) => ErrorRead(s, ok)
    case ClientCancels => s.(cancelled := true, leftEarly := s.leftEarly || !WriterDone(s.consumer))
    case ServerCancels => s.(cancelled := true)
  }

  // Any schedule; a move that is not possible is skipped.
  function RunStream(turn: Turn, s: Stream, moves: seq<Move>): Stream
    decreases |moves|
  {
    if moves == [] then s
    else RunStream(turn, if Enabled(turn, s, moves[0]) then Moved(turn, s, moves[0]) else s, moves[1..])
  }

  // ---- What a turn amounts to, with no channels in sight ----

  // The non-empty texts among the first i chunks.
  function TextsUpTo(turn: Turn, i: nat): seq<string>
    requires i <= |turn.chunks|
  {
    if i == 0 then [] else TextsUpTo(turn, i - 1) + if Sends(turn, i - 1) then [turn.chunks[i - 1].text] else []
  }

  // Where the turn stops by itself: its first error, or its end.
  function StopsAt(turn: Turn, i: nat): (k: nat)
    requires i <= |turn.chunks|
    ensures i <= k <= |turn.chunks|
    decreases |turn.chunks| - i
  {
    if i == |turn.chunks| || turn.chunks[i].ErrorChunk? then i else StopsAt(turn, i + 1)
  }

  // The texts a caller should see.
  function AllTexts(turn: Turn): seq<string> {
    if turn.setupError.Some? then [] else TextsUpTo(turn, StopsAt(turn, 0))
  }

  function OwnError(turn: Turn): Option<TurnError> {
    if turn.setupError.Some? then Some(FromTurn(turn.setupError.value))
    else
      var k := StopsAt(turn, 0);
      if k == |turn.chunks| then None
      else if turn.chunks[k].ErrorChunk? then Some(FromTurn(turn.chunks[k].error))
      else None
  }

  lemma {:induction false} StopsAtIsFirst(turn: Turn, i: nat)
    requires i <= |turn.chunks|
    ensures var k := StopsAt(turn, i);
            && (forall j :: i <= j < k ==> !turn.chunks[j].ErrorChunk?)
            && (k < |turn.chunks| ==> turn.chunks[k].ErrorChunk?)
    decreases |turn.chunks| - i
  {
    if i < |turn.chunks| && !turn.chunks[i].ErrorChunk? {
      StopsAtIsFirst(turn, i + 1);
    }
  }

  lemma {:induction false} TextsGrow(turn: Turn, i: nat, j: nat)
    requires i <= j <= |turn.chunks|
    ensures TextsUpTo(turn, i) <= TextsUpTo(turn, j)
    decreases j
  {
    if i < j {
      TextsGrow(turn, i, j - 1);
    }
  }

  function Outputs(texts: seq<string>): seq<Line> {
    seq(|texts|, i requires 0 <= i < |texts| => Output(texts[i]))
  }

  // ---- The invariant ----

  // What has crossed the data channel, and how the producer means to end.
  ghost predicate ProducerOk(turn: Turn, s: Stream) {
    match s.producer
    case SettingUp => s.handed == []
    case Looping(i) => turn.setupError.None? && i <= StopsAt(turn, 0) && s.handed == TextsUpTo(turn, i)
    case Sending(i) => turn.setupError.None? && i < StopsAt(turn, 0) && Sends(turn, i) && s.handed == TextsUpTo(turn, i)
    case Returning(err) => EndsWith(turn, s, err, s.cancelled)
    case _ => s.handed <= AllTexts(turn)
  }

  // The producer ends on its own terms with everything handed over, or because of the context.
  ghost predicate EndsWith(turn: Turn, s: Stream, err: Option<TurnError>, cut: bool) {
    && s.handed <= AllTexts(turn)
    && ((err == OwnError(turn) && s.handed == AllTexts(turn)) || (err == Some(ContextDone) && cut))
  }

  // Channels close in order, and the slot holds the producer's verdict until it is read.
  ghost predicate ChannelsOk(turn: Turn, s: Stream) {
    && (s.dataClosed <==> s.producer.Ended?)
    && (s.errorsClosed <==> s.producer.ClosingData? || s.producer.Ended?)
    && ((s.producer.ClosingErrors? || s.errorsClosed) && s.taken.None? ==> EndsWith(turn, s, s.slot, s.cancelled))
    && (s.taken.Some? ==> EndsWith(turn, s, s.taken.value, s.leftEarly))
    && (s.slot.Some? ==> s.producer.ClosingErrors? || s.errorsClosed)
    && (s.taken.Some? ==> s.slot.None? && s.dataClosed)
  }

  ghost predicate WriterOk(s: Stream) {
    && (s.taken.Some? <==> s.consumer.Finished?)
    && (s.consumer.Gone? ==> s.broken)
    && (s.broken ==> WriterDone(s.consumer))
    && (s.cancelled && !WriterDone(s.consumer) ==> s.leftEarly)
    && match s.consumer
       case Receiving => s.lines == Outputs(s.handed) && s.status == (if s.handed == [] then None else Some(STATUS_OK))
       case Encoding(text) =>
         && s.handed != [] && s.handed[|s.handed| - 1] == text
         && s.lines == Outputs(s.handed[..|s.handed| - 1])
         && s.status == (if |s.handed| == 1 then None else Some(STATUS_OK))
       case AwaitingError =>
         && s.dataClosed
         && s.lines == Outputs(s.handed) && s.status == (if s.handed == [] then None else Some(STATUS_OK))
       case Gone => s.handed != [] && s.lines == Outputs(s.handed[..|s.handed| - 1]) && s.status == Some(STATUS_OK)
       case Finished =>
         match s.taken.value
         case None => s.lines == Outputs(s.handed) && s.status == Some(STATUS_OK)
         case Some(e) =>
           if s.handed == [] then s.lines == [] && s.status == Some(STATUS_ERROR)
           else s.status == Some(STATUS_OK) && s.lines == Outputs(s.handed) + if s.broken then [] else [ErrorLine(e)]
  }

  ghost predicate StreamOk(turn: Turn, s: Stream) {
    ProducerOk(turn, s) && ChannelsOk(turn, s) && WriterOk(s)
  }

  lemma OutputsSnoc(texts: seq<string>, text: string)
    ensures Outputs(texts + [text]) == Outputs(texts) + [Output(text)]
  {}

  // The producer's own steps.
  lemma LoopStep(turn: Turn, s: Stream)
    requires ProducerOk(turn, s) && s.producer.Looping?
    ensures ProducerOk(turn, Produced(turn, s))
  {
    var i, k := s.producer.i, StopsAt(turn, 0);
    StopsAtIsFirst(turn, 0);
    assert AllTexts(turn) == TextsUpTo(turn, k);
    if i < k {
      TextsSkip(turn, i);
    }
    hide TextsUpTo, StopsAt, AllTexts;
  }

  lemma ProducerStep(turn: Turn, s: Stream)
    requires ProducerOk(turn, s) && Enabled(turn, s, Produce)
    ensures ProducerOk(turn, Produced(turn, s))
  {
    if s.producer.Looping? {
      LoopStep(turn, s);
    } else {
      TextsStartEmpty(turn);
      hide TextsUpTo, StopsAt, Sends;
    }
  }

  lemma ChannelStep(turn: Turn, s: Stream)
    requires ProducerOk(turn, s) && ChannelsOk(turn, s) && Enabled(turn, s, Produce)
    ensures ChannelsOk(turn, Produced(turn, s))
  {}

  lemma ProduceLeavesWriter(turn: Turn, s: Stream)
    requires Enabled(turn, s, Produce)
    ensures var t := Produced(turn, s);
            t == s.(producer := t.producer, slot := t.slot, errorsClosed := t.errorsClosed, dataClosed := t.dataClosed)
            && (s.dataClosed ==> t.dataClosed)
  {
    hide Sends;
  }

  lemma StepDescends(turn: Turn, p: Producer)
    requires !p.Sending? && !p.Ended?
    ensures ProducerRank(turn, StepFrom(turn, p)) < ProducerRank(turn, p)
  {
    hide Sends;
  }

  lemma WriterStep(turn: Turn, s: Stream)
    requires WriterOk(s) && Enabled(turn, s, Produce)
    ensures WriterOk(Produced(turn, s))
  {
    ProduceLeavesWriter(turn, s);
    hide Outputs, Produced, Enabled;
  }

  lemma ProduceOk(turn: Turn, s: Stream)
    requires StreamOk(turn, s) && Enabled(turn, s, Produce)
    ensures StreamOk(turn, Produced(turn, s))
  {
    ProducerStep(turn, s);
    ChannelStep(turn, s);
    WriterStep(turn, s);
    hide ProducerOk, ChannelsOk, WriterOk, Produced, Enabled;
  }

  lemma TextsStartEmpty(turn: Turn)
    ensures TextsUpTo(turn, 0) == []
  {}

  lemma TextsSkip(turn: Turn, i: nat)
    requires i < |turn.chunks|
    ensures TextsUpTo(turn, i + 1) == TextsUpTo(turn, i) + if Sends(turn, i) then [turn.chunks[i].text] else []
  {}

  lemma HandOverOk(turn: Turn, s: Stream)
    requires StreamOk(turn, s) && Enabled(turn, s, HandOver)
    ensures StreamOk(turn, Moved(turn, s, HandOver))
  {}

  lemma GiveUpOk(turn: Turn, s: Stream)
    requires StreamOk(turn, s) && Enabled(turn, s, GiveUp)
    ensures StreamOk(turn, Moved(turn, s, GiveUp))
  {
    TextsGrow(turn, s.producer.i, StopsAt(turn, 0));
    hide TextsUpTo, StopsAt;
  }

  lemma EncodeWrites(turn: Turn, s: Stream, ok: bool)
    requires WriterOk(s) && Enabled(turn, s, Encode(ok))
    ensures WriterOk(Moved(turn, s, Encode(ok)))
  {}

  lemma EncodeOk(turn: Turn, s: Stream, ok: bool)
    requires StreamOk(turn, s) && Enabled(turn, s, Encode(ok))
    ensures StreamOk(turn, Moved(turn, s, Encode(ok)))
  {
    EncodeWrites(turn, s, ok);
    hide WriterOk;
    var t := Moved(turn, s, Encode(ok));
    assert t.producer == s.producer && t.handed == s.handed && t.cancelled == s.cancelled && t.slot == s.slot
        && t.taken == s.taken;
    assert t.dataClosed == s.dataClosed && t.errorsClosed == s.errorsClosed;
    hide Moved, TextsUpTo, StopsAt, AllTexts, OwnError, Sends;
  }

  lemma ReadErrorOk(turn: Turn, s: Stream, ok: bool)
    requires StreamOk(turn, s) && Enabled(turn, s, ReadError(ok))
    ensures StreamOk(turn, Moved(turn, s, ReadError(ok)))
  {
    hide TextsUpTo, StopsAt, AllTexts, OwnError;
    assert s.handed == [] ==> Outputs(s.handed) == [];
  }

  // Every move keeps the invariant.
  lemma MoveKeepsStreamOk(turn: Turn, s: Stream, m: Move)
    requires StreamOk(turn, s) && Enabled(turn, s, m)
    ensures StreamOk(turn, Moved(turn, s, m))
  {
    hide TextsUpTo, StopsAt, Outputs, AllTexts, OwnError, Sends;
    match m
    case Produce => ProduceOk(turn, s);
    case GiveUp => GiveUpOk(turn, s);
    case HandOver => HandOverOk(turn, s);
    case Encode(ok) => EncodeOk(turn, s, ok);
    case ReadError(ok) => ReadErrorOk(turn, s, ok);
    case _ =>
  }

  lemma {:induction false} RunKeepsStreamOk(turn: Turn, s: Stream, moves: seq<Move>)
    requires StreamOk(turn, s)
    ensures StreamOk(turn, RunStream(turn, s, moves))
    decreases |moves|
  {
    if moves != [] {
      if Enabled(turn, s, moves[0]) {
        MoveKeepsStreamOk(turn, s, moves[0]);
        RunKeepsStreamOk(turn, Moved(turn, s, moves[0]), moves[1..]);
      } else {
        RunKeepsStreamOk(turn, s, moves[1..]);
      }
    }
  }

  // ---- What the caller sees ----

  // The lines so far: some of the turn's texts in order, then at most one error line.
  ghost predicate LinesOf(turn: Turn, lines: seq<Line>) {
    exists n: nat, tail: seq<Line> ::
      && n <= |AllTexts(turn)|
      && lines == Outputs(AllTexts(turn)[..n]) + tail
      && |tail| <= 1 && (tail != [] ==> tail[0].ErrorLine? && n > 0)
  }

  datatype Response = Response(status: int, lines: seq<Line>)

  // The response to these texts and this outcome when every write works: an error is
  // told by status when there was no text, and otherwise by one more line.
  ghost function ResponseTo(texts: seq<string>, err: Option<TurnError>): Response {
    match err
    case None => Response(STATUS_OK, Outputs(texts))
    case Some(e) =>
      if texts == [] then Response(STATUS_ERROR, []) else Response(STATUS_OK, Outputs(texts) + [ErrorLine(e)])
  }

  ghost predicate TellsAll(turn: Turn, s: Stream) {
    var r := ResponseTo(AllTexts(turn), OwnError(turn));
    s.status == Some(r.status) && s.lines == r.lines
  }

  lemma HandedIsPrefix(turn: Turn, s: Stream)
    requires StreamOk(turn, s)
    ensures s.handed <= AllTexts(turn)
  {
    if s.producer.Looping? || s.producer.Sending? {
      TextsGrow(turn, s.producer.i, StopsAt(turn, 0));
    }
  }

  lemma LinesHold(turn: Turn, s: Stream)
    requires StreamOk(turn, s)
    ensures LinesOf(turn, s.lines)
  {
    HandedIsPrefix(turn, s);
    var n, all := |s.handed|, AllTexts(turn);
    assert s.handed == all[..n];
    hide AllTexts, ProducerOk, ChannelsOk;
    if s.consumer.Encoding? || s.consumer.Gone? {
      assert s.handed[..n - 1] == all[..n - 1];
      assert s.lines == Outputs(all[..n - 1]) + [];
    } else if s.lines == Outputs(s.handed) {
      assert s.lines == Outputs(all[..n]) + [];
    } else if s.handed != [] {
      assert s.lines == Outputs(all[..n]) + [ErrorLine(s.taken.value.value)];
    }
  }

  lemma FinishTells(turn: Turn, s: Stream)
    requires StreamOk(turn, s) && WriterDone(s.consumer) && !s.leftEarly && !s.broken
    ensures TellsAll(turn, s)
  {}

  // In every interleaving, cancelled or not, with a writer that stops early or not:
  // the lines are a prefix of the turn's non-empty texts, in order, followed by at
  // most one error line; status 500 means an error came before any text; and once the
  // writer is done, the response tells the whole turn unless a write failed or the
  // client left while it was being written. The server's own cancellation, which
  // follows every response, takes nothing away.
  lemma StreamTellsTheTruth(turn: Turn, moves: seq<Move>)
    ensures var s := RunStream(turn, Opened(), moves);
            && LinesOf(turn, s.lines)
            && (s.status == Some(STATUS_ERROR)
                <==> s.taken.Some? && s.taken.value.Some? && s.handed == [])
            && (s.status == Some(STATUS_ERROR) ==> s.lines == [])
            && (WriterDone(s.consumer) && !s.leftEarly && !s.broken ==> TellsAll(turn, s))
  {
    var s := RunStream(turn, Opened(), moves);
    assert StreamOk(turn, Opened());
    RunKeepsStreamOk(turn, Opened(), moves);
    LinesHold(turn, s);
    if WriterDone(s.consumer) && !s.leftEarly && !s.broken {
      FinishTells(turn, s);
    }
    assert Outputs([]) == [];
    hide RunStream, LinesOf, TellsAll, ProducerOk, ChannelsOk, Outputs;
  }

  // ---- Progress ----

  function ProducerRank(turn: Turn, p: Producer): nat {
    var n := |turn.chunks|;
    match p
    case SettingUp => 4 * n + 6
    case Looping(i) => if i <= n then 4 * (n - i) + 5 else 5
    case Sending(i) => if i <= n then 4 * (n - i) + 4 else 4
    case Returning(_) => 3
    case ClosingErrors => 2
    case ClosingData => 1
    case Ended => 0
  }

  function ConsumerRank(c: Consumer): nat {
    match c
    case Encoding(_) => 3
    case Receiving => 2
    case AwaitingError => 1
    case _ => 0
  }

  function Left(turn: Turn, s: Stream): nat {
    ProducerRank(turn, s.producer) + ConsumerRank(s.consumer) + if s.cancelled then 0 else 1
  }

  lemma MoveMakesProgress(turn: Turn, s: Stream, m: Move)
    requires StreamOk(turn, s) && Enabled(turn, s, m)
    ensures Left(turn, Moved(turn, s, m)) < Left(turn, s)
  {
    assert s.producer.Sending? ==> s.producer.i < |turn.chunks|;
    hide StreamOk, Sends;
    if m.Produce? {
      ProduceLeavesWriter(turn, s);
      StepDescends(turn, s.producer);
      hide StepFrom, ProducerRank;
    } else if m.ReadError? || m.Encode? {
      WriterDescends(turn, s, m);
    } else {
      hide Produced, ErrorRead, WithStatus;
    }
  }

  lemma WriterDescends(turn: Turn, s: Stream, m: Move)
    requires Enabled(turn, s, m) && (m.ReadError? || m.Encode?)
    ensures Left(turn, Moved(turn, s, m)) < Left(turn, s)
  {
    WriterOnly(turn, s, m);
    hide Moved, ProducerRank, Sends;
  }

  lemma WriterOnly(turn: Turn, s: Stream, m: Move)
    requires Enabled(turn, s, m) && (m.ReadError? || m.Encode?)
    ensures var t := Moved(turn, s, m);
            && t.producer == s.producer && t.cancelled == s.cancelled
            && ConsumerRank(t.consumer) < ConsumerRank(s.consumer)
  {
    if m.Encode? {
      EncodedLeavesProducer(s, s.consumer.text, m.ok);
    } else {
      ReadLeavesProducer(s, m.ok);
    }
    hide Produced, Sends, ErrorRead, Encoded;
  }

  lemma EncodedLeavesProducer(s: Stream, text: string, ok: bool)
    ensures var t := Encoded(s, text, ok);
            t.producer == s.producer && t.cancelled == s.cancelled && (t.consumer.Receiving? || t.consumer.Gone?)
  {}

  lemma ReadLeavesProducer(s: Stream, ok: bool)
    ensures var t := ErrorRead(s, ok);
            t.producer == s.producer && t.cancelled == s.cancelled && t.consumer.Finished?
  {}

  predicate Over(s: Stream) {
    s.producer.Ended? && WriterDone(s.consumer) && s.cancelled
  }

  // Until both sides are over, one of them, or the server after the handler has
  // returned, can move: no state is stuck waiting for the client.
  lemma NeverStuck(turn: Turn, s: Stream)
    requires StreamOk(turn, s) && !Over(s)
    ensures exists m :: Enabled(turn, s, m) && !m.ClientCancels?
  {
    if !s.producer.Ended? && !s.producer.Sending? {
      assert Enabled(turn, s, Produce);
    } else if s.consumer.Encoding? {
      assert Enabled(turn, s, Encode(true));
    } else if s.consumer.AwaitingError? {
      assert Enabled(turn, s, ReadError(true));
    } else if WriterDone(s.consumer) {
      if s.cancelled {
        assert Enabled(turn, s, GiveUp);
      } else {
        assert Enabled(turn, s, ServerCancels);
      }
    } else if s.producer.Sending? {
      assert Enabled(turn, s, HandOver);
    } else {
      assert Enabled(turn, s, SeeClosed);
    }
  }

  predicate AllEnabled(turn: Turn, s: Stream, moves: seq<Move>)
    decreases |moves|
  {
    moves == [] || (Enabled(turn, s, moves[0]) && AllEnabled(turn, Moved(turn, s, moves[0]), moves[1..]))
  }

  lemma {:induction false} Shortens(turn: Turn, s: Stream, moves: seq<Move>)
    requires StreamOk(turn, s) && AllEnabled(turn, s, moves)
    ensures |moves| <= Left(turn, s)
    ensures StreamOk(turn, RunStream(turn, s, moves))
    decreases |moves|
  {
    if moves != [] {
      MoveMakesProgress(turn, s, moves[0]);
      MoveKeepsStreamOk(turn, s, moves[0]);
      Shortens(turn, Moved(turn, s, moves[0]), moves[1..]);
    }
  }

  // So no schedule of possible moves goes on for ever, and one that nothing but the
  // client could prolong has seen the goroutine end and the handler return.
  lemma StreamTerminates(turn: Turn, moves: seq<Move>)
    requires AllEnabled(turn, Opened(), moves)
    ensures |moves| <= 4 * |turn.chunks| + 9
    ensures var s := RunStream(turn, Opened(), moves);
            (forall m :: Enabled(turn, s, m) ==> m.ClientCancels?) ==> Over(s)
  {
    assert StreamOk(turn, Opened());
    Shortens(turn, Opened(), moves);
    var s := RunStream(turn, Opened(), moves);
    if !Over(s) {
      NeverStuck(turn, s);
    }
  }
}

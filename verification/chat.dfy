/**
 * The chat widget's send cycle: the empty-message guard, the audio reset, the user message,
 * the read loop that turns each complete, non-blank, parseable line of the reply into a bot
 * message and (audio on) a queued clip, and the typing flag cleared on every path.
 */
module Chat {
  import opened Wrappers
  import opened Text
  import opened Framing
  import opened JsonRecord
  import opened Playback
  import Backend

  /** Who wrote a message. */
  datatype Role = User | Bot

  /** One entry of the conversation. */
  datatype Message = Message(role: Role, content: string)

  /** The voice ids the widget offers. */
  const VoiceIds: seq<string> := ["en-US-Standard-A", "en-US-Standard-B", "en-GB-Standard-A", "en-GB-Standard-B"]

  /** The model ids the widget offers. */
  const ModelIds: seq<string> := ["phi4:latest", "deepseek-r1:32b", "llama3.2:latest", "nous-hermes2:latest"]

  /** The widget's state that the send cycle reads and writes. */
  datatype Session = Session(
    messages: seq<Message>,
    inputText: string,
    audioEnabled: bool,
    isBotTyping: bool,
    voice: string,
    model: string,
    player: Player)

  /** The state at mount. */
  const Initial: Session := Session([], "", true, false, VoiceIds[0], ModelIds[0], Idle)

  /** How the reply stream stopped: `done`, or the request or a read throwing. */
  datatype StreamEnd = Done | Broken

  /** The reply as the reader sees it: decoded chunks, then how the stream stopped. */
  datatype Response = Response(chunks: seq<string>, end: StreamEnd)

  /**
   * `JSON.parse` of one line, read as a record: None when it throws; the model treats
   * it as a parse that throws when the object has no string `sentence` and `audioUrl`.
   */
  type Parser = string -> Option<StreamRecord>

  /** `customMessage || inputText`: a missing or empty custom message falls back to the input. */
  function MessageToSend(custom: Option<string>, inputText: string): string
  {
    if custom.Some? && custom.value != "" then custom.value else inputText
  }

  /** The record one line yields: none for a blank line or a line whose parse throws. */
  function LineRecords(line: string, parse: Parser): (r: seq<StreamRecord>)
    ensures |r| <= 1
    ensures Blank(line) ==> r == []
    ensures !Blank(line) ==> (r == [] <==> parse(line).None?)
    ensures r != [] ==> parse(line) == Some(r[0])
  {
    TrimEmptyIffBlank(line);
    if Trim(line) == "" then []
    else
      match parse(line)
      case None => []
      case Some(record) => [record]
  }

  /** The records a sequence of lines yields, in order. */
  function Records(lines: seq<string>, parse: Parser): seq<StreamRecord>
  {
    if lines == [] then []
    else Records(lines[..|lines| - 1], parse) + LineRecords(lines[|lines| - 1], parse)
  }

  /** One bot message per record, in order, holding the trimmed sentence. */
  function BotMessages(records: seq<StreamRecord>): (ms: seq<Message>)
    ensures |ms| == |records|
    ensures forall i {:trigger ms[i]} :: 0 <= i < |records| ==> ms[i] == Message(Bot, Trim(records[i].sentence))
  {
    if records == [] then []
    else BotMessages(records[..|records| - 1]) + [Message(Bot, Trim(records[|records| - 1].sentence))]
  }

  /** The clip locators of the records, in order. */
  function Urls(records: seq<StreamRecord>): (us: seq<string>)
    ensures |us| == |records|
    ensures forall i {:trigger us[i]} :: 0 <= i < |records| ==> us[i] == records[i].audioUrl
  {
    if records == [] then []
    else Urls(records[..|records| - 1]) + [records[|records| - 1].audioUrl]
  }

  /**
   * The body of the inner loop for one line. `audioOn` is the audio flag the send captured
   * when it began: toggling audio during the reply does not change it.
   */
  function ProcessLine(s: Session, line: string, parse: Parser, audioOn: bool): Session
  {
    if Trim(line) == "" then s
    else
      match parse(line)
      case None => s
      case Some(record) =>
        var shown := s.(messages := s.messages + [Message(Bot, Trim(record.sentence))]);
        if audioOn then shown.(player := Enqueue(shown.player, record.audioUrl)) else shown
  }

  /** The inner loop over a sequence of lines. */
  function ProcessLines(s: Session, lines: seq<string>, parse: Parser, audioOn: bool): Session
  {
    if lines == [] then s
    else ProcessLine(ProcessLines(s, lines[..|lines| - 1], parse, audioOn), lines[|lines| - 1], parse, audioOn)
  }

  /** The session once `records` have been shown and, with audio on, their clips queued. */
  function Shown(s: Session, records: seq<StreamRecord>, audioOn: bool): Session
  {
    s.(messages := s.messages + BotMessages(records),
       player := if audioOn then EnqueueAll(s.player, Urls(records)) else s.player)
  }

  lemma {:induction false} ShownAppend(s: Session, a: seq<StreamRecord>, b: seq<StreamRecord>, audioOn: bool)
    ensures Shown(Shown(s, a, audioOn), b, audioOn) == Shown(s, a + b, audioOn)
  {
    MessagesAppend(s.messages, a, b);
    PlayerAppend(s.player, a, b, audioOn);
  }

  lemma {:induction false} MessagesAppend(ms: seq<Message>, a: seq<StreamRecord>, b: seq<StreamRecord>)
    ensures ms + BotMessages(a) + BotMessages(b) == ms + BotMessages(a + b)
  {
    BotMessagesAppend(a, b);
    AppendAssoc(ms, BotMessages(a), BotMessages(b));
  }

  lemma AppendAssoc(x: seq<Message>, y: seq<Message>, z: seq<Message>)
    ensures x + y + z == x + (y + z)
  {
  }

  lemma {:induction false} PlayerAppend(p: Player, a: seq<StreamRecord>, b: seq<StreamRecord>, audioOn: bool)
    ensures audioOn ==> EnqueueAll(EnqueueAll(p, Urls(a)), Urls(b)) == EnqueueAll(p, Urls(a + b))
  {
    if audioOn {
      UrlsAppend(a, b);
      EnqueueAllAppend(p, Urls(a), Urls(b));
    }
  }

  /**
   * What processing lines does: it appends one bot message per record they yield, queues the
   * records' clips when audio is on, and changes nothing else.
   */
  lemma {:induction false} ProcessLinesEffect(s: Session, lines: seq<string>, parse: Parser, audioOn: bool)
    ensures ProcessLines(s, lines, parse, audioOn) == Shown(s, Records(lines, parse), audioOn)
    decreases |lines|
  {
    if lines == [] {
      assert s.messages + [] == s.messages;
    } else {
      var init := lines[..|lines| - 1];
      var line := lines[|lines| - 1];
      ProcessLinesEffect(s, init, parse, audioOn);
      ProcessLineEffect(ProcessLines(s, init, parse, audioOn), line, parse, audioOn);
      ShownAppend(s, Records(init, parse), LineRecords(line, parse), audioOn);
    }
  }

  lemma {:induction false} ProcessLinesSnoc(s: Session, lines: seq<string>, line: string, parse: Parser, audioOn: bool)
    ensures ProcessLines(s, lines + [line], parse, audioOn)
         == ProcessLine(ProcessLines(s, lines, parse, audioOn), line, parse, audioOn)
  {
    assert (lines + [line])[..|lines|] == lines;
  }

  /** One line appends the bot message of its record, if any, and queues its clip when audio is on. */
  lemma {:induction false} ProcessLineEffect(s: Session, line: string, parse: Parser, audioOn: bool)
    ensures ProcessLine(s, line, parse, audioOn) == Shown(s, LineRecords(line, parse), audioOn)
  {
    if Trim(line) == "" || parse(line).None? {
      assert LineRecords(line, parse) == [];
      assert s.messages + [] == s.messages;
    } else {
      var record := parse(line).value;
      assert LineRecords(line, parse) == [record];
      assert [record][..0] == [];
      assert EnqueueAll(s.player, [record.audioUrl]) == Enqueue(s.player, record.audioUrl);
    }
  }

  lemma {:induction false} BotMessagesAppend(a: seq<StreamRecord>, b: seq<StreamRecord>)
    ensures BotMessages(a + b) == BotMessages(a) + BotMessages(b)
  {
    var whole := BotMessages(a + b);
    var parts := BotMessages(a) + BotMessages(b);
    forall i | 0 <= i < |whole| ensures whole[i] == parts[i] {
      RecordAt(a, b, i);
    }
    SameMessages(whole, parts);
  }

  lemma {:induction false} UrlsAppend(a: seq<StreamRecord>, b: seq<StreamRecord>)
    ensures Urls(a + b) == Urls(a) + Urls(b)
  {
    var whole := Urls(a + b);
    var parts := Urls(a) + Urls(b);
    forall i | 0 <= i < |whole| ensures whole[i] == parts[i] {
      RecordAt(a, b, i);
    }
    SameStrings(whole, parts);
  }

  /** Index i of `a + b` is in `a` or, shifted, in `b`. */
  lemma RecordAt(a: seq<StreamRecord>, b: seq<StreamRecord>, i: int)
    requires 0 <= i < |a| + |b|
    ensures i < |a| ==> (a + b)[i] == a[i]
    ensures i >= |a| ==> (a + b)[i] == b[i - |a|]
  {
  }

  lemma SameMessages(x: seq<Message>, y: seq<Message>)
    requires |x| == |y|
    requires forall i :: 0 <= i < |x| ==> x[i] == y[i]
    ensures x == y
  {
  }

  lemma SameStrings(x: seq<string>, y: seq<string>)
    requires |x| == |y|
    requires forall i :: 0 <= i < |x| ==> x[i] == y[i]
    ensures x == y
  {
  }

  lemma {:induction false} EnqueueAllAppend(p: Player, a: seq<string>, b: seq<string>)
    ensures EnqueueAll(p, a + b) == EnqueueAll(EnqueueAll(p, a), b)
    decreases |b|
  {
    if b == [] {
      assert a + b == a;
    } else {
      EnqueueAllAppend(p, a, b[..|b| - 1]);
      assert (a + b)[..|a + b| - 1] == a + b[..|b| - 1];
    }
  }

  lemma {:induction false} ProcessLinesAppend(s: Session, a: seq<string>, b: seq<string>, parse: Parser, audioOn: bool)
    ensures ProcessLines(s, a + b, parse, audioOn) == ProcessLines(ProcessLines(s, a, parse, audioOn), b, parse, audioOn)
    decreases |b|
  {
    if b == [] {
      assert a + b == a;
    } else {
      var init := b[..|b| - 1];
      var line := b[|b| - 1];
      ProcessLinesAppend(s, a, init, parse, audioOn);
      assert b == init + [line];
      assert a + b == (a + init) + [line];
      ProcessLinesSnoc(s, a + init, line, parse, audioOn);
    }
  }

  /** The inner `for` loop of the reader: the lines of one chunk, in order. */
  method ForEachLine(start: Session, lines: seq<string>, parse: Parser, audioOn: bool) returns (r: Session)
    ensures r == Shown(start, Records(lines, parse), audioOn)
  {
    r := start;
    var j := 0;
    while j < |lines|
      invariant 0 <= j <= |lines|
      invariant r == ProcessLines(start, lines[..j], parse, audioOn)
    {
      assert lines[..j + 1] == lines[..j] + [lines[j]];
      ProcessLinesSnoc(start, lines[..j], lines[j], parse, audioOn);
      r := ProcessLine(r, lines[j], parse, audioOn);
      j := j + 1;
    }
    assert lines[..|lines|] == lines;
    ProcessLinesEffect(start, lines, parse, audioOn);
  }

  /**
   * The read loop of `handleSend`, chunk by chunk and line by line as the widget runs it:
   * the session it leaves has processed exactly the complete lines of the text received,
   * wherever the chunk boundaries fell; the text after the last line feed is never parsed.
   */
  method ReadLoop(s: Session, chunks: seq<string>, parse: Parser, audioOn: bool) returns (r: Session)
    ensures r.messages == s.messages + BotMessages(Records(CompleteLines(Concat(chunks)), parse))
    ensures r.player == if audioOn then EnqueueAll(s.player, Urls(Records(CompleteLines(Concat(chunks)), parse)))
                        else s.player
    ensures r.(messages := s.messages, player := s.player) == s
  {
    r := s;
    var buffer := "";
    ghost var done: seq<string> := [];
    var i := 0;
    assert chunks[..0] == [];
    while i < |chunks|
      invariant 0 <= i <= |chunks|
      invariant NoNewlines(done) && '\n' !in buffer
      invariant Terminated(done) + buffer == Concat(chunks[..i])
      invariant r == ProcessLines(s, done, parse, audioOn)
    {
      var step := FeedChunk(buffer, chunks[i]);
      var lines := step.0;
      ReadLoopStep(chunks, i, done, buffer, lines, step.1);
      ReadStep(s, r, done, lines, parse, audioOn);
      r := ForEachLine(r, lines, parse, audioOn);
      done := done + lines;
      buffer := step.1;
      i := i + 1;
    }
    ReadLoopDone(s, r, chunks, done, buffer, parse, audioOn);
  }

  /** One more chunk: the lines handed out so far, then the buffer, are still the text received. */
  lemma {:induction false} ReadLoopStep(chunks: seq<string>, i: int, done: seq<string>, buffer: string,
                                        lines: seq<string>, rest: string)
    requires 0 <= i < |chunks|
    requires NoNewlines(done) && Terminated(done) + buffer == Concat(chunks[..i])
    requires NoNewlines(lines) && Terminated(lines) + rest == buffer + chunks[i]
    ensures NoNewlines(done + lines)
    ensures Terminated(done + lines) + rest == Concat(chunks[..i + 1])
  {
    TerminatedAppend(done, lines);
    Regroup(Terminated(done), Terminated(lines), rest, buffer, chunks[i], Concat(chunks[..i]));
    assert chunks[..i + 1][..i] == chunks[..i];
    forall k | 0 <= k < |done + lines| ensures '\n' !in (done + lines)[k] {
      if k >= |done| { assert (done + lines)[k] == lines[k - |done|]; }
    }
  }

  /** Showing the records of the next lines continues processing everything so far. */
  lemma {:induction false} ReadStep(s: Session, r: Session, done: seq<string>, lines: seq<string>, parse: Parser, audioOn: bool)
    requires r == ProcessLines(s, done, parse, audioOn)
    ensures Shown(r, Records(lines, parse), audioOn) == ProcessLines(s, done + lines, parse, audioOn)
  {
    ProcessLinesAppend(s, done, lines, parse, audioOn);
    ProcessLinesEffect(r, lines, parse, audioOn);
  }

  /** Once every chunk is read, the loop has shown the records of the text's complete lines. */
  lemma {:induction false} ReadLoopDone(s: Session, r: Session, chunks: seq<string>, done: seq<string>,
                                        buffer: string, parse: Parser, audioOn: bool)
    requires NoNewlines(done) && '\n' !in buffer
    requires Terminated(done) + buffer == Concat(chunks[..|chunks|])
    requires r == ProcessLines(s, done, parse, audioOn)
    ensures r.messages == s.messages + BotMessages(Records(CompleteLines(Concat(chunks)), parse))
    ensures r.player == if audioOn then EnqueueAll(s.player, Urls(Records(CompleteLines(Concat(chunks)), parse)))
                        else s.player
    ensures r.(messages := s.messages, player := s.player) == s
  {
    assert chunks[..|chunks|] == chunks;
    SplitTerminated(done, buffer);
    assert (done + [buffer])[..|done|] == done;
    ProcessLinesEffect(s, done, parse, audioOn);
  }

  /**
   * The state values a `handleSend` closure reads: those of the render that created it.
   * Messages and the audio refs are read as they are when it runs.
   */
  datatype Captured = Captured(inputText: string, voice: string, model: string, audioEnabled: bool)

  /** The values a callback created in the current render sees. */
  function Snapshot(s: Session): Captured
  {
    Captured(s.inputText, s.voice, s.model, s.audioEnabled)
  }

  /**
   * The start of `handleSend`, with `typed` the input field as the closure saw it: nothing
   * happens for a message that trims to empty; otherwise audio is reset, the user message
   * appended, the input cleared and typing shown.
   */
  function BeginSend(s: Session, typed: string, custom: Option<string>): (r: Option<Session>)
    ensures r.None? <==> Blank(MessageToSend(custom, typed))
    ensures r.Some? ==> r.value.player == Idle && r.value.isBotTyping && r.value.inputText == ""
    ensures r.Some? ==> r.value.messages == s.messages + [Message(User, MessageToSend(custom, typed))]
    ensures r.Some? ==>
      r.value.(player := s.player, messages := s.messages, inputText := s.inputText, isBotTyping := s.isBotTyping) == s
  {
    var text := MessageToSend(custom, typed);
    TrimEmptyIffBlank(text);
    if Trim(text) == "" then None
    else
      Some(s.(player := Reset(s.player),
              messages := s.messages + [Message(User, text)],
              inputText := "",
              isBotTyping := true))
  }

  /**
   * One whole send cycle run by a closure that captured `at`: the request it issues and the
   * session it leaves. A blank message issues nothing and changes nothing. Otherwise the
   * request carries the message and the captured voice and model; the conversation gains the
   * user message and then one bot message per parsed line of the reply, in arrival order;
   * the queue holds the reply's clips (captured audio flag on) with the first playing; the
   * input is cleared; typing ends whether the stream finished or broke; nothing else changes.
   */
  function SendWith(s: Session, at: Captured, custom: Option<string>, response: Response, parse: Parser)
    : (r: (Session, Option<Backend.ChatRequest>))
    ensures Blank(MessageToSend(custom, at.inputText)) ==> r == (s, None)
    ensures !Blank(MessageToSend(custom, at.inputText)) ==>
      var text := MessageToSend(custom, at.inputText);
      var records := Records(CompleteLines(Concat(response.chunks)), parse);
      && r.1 == Some(Backend.ChatRequest(text, at.voice, at.model))
      && r.0.messages == s.messages + [Message(User, text)] + BotMessages(records)
      && r.0.player == (if at.audioEnabled then EnqueueAll(Idle, Urls(records)) else Idle)
      && !r.0.isBotTyping
      && r.0.inputText == ""
      && r.0.audioEnabled == s.audioEnabled && r.0.voice == s.voice && r.0.model == s.model
  {
    match BeginSend(s, at.inputText, custom)
    case None => (s, None)
    case Some(sending) =>
      var text := MessageToSend(custom, at.inputText);
      var framed := FrameAll(response.chunks);
      FrameAllIsSplit(response.chunks);
      ProcessLinesEffect(sending, framed.lines, parse, at.audioEnabled);
      var read := ProcessLines(sending, framed.lines, parse, at.audioEnabled);
      (read.(isBotTyping := false), Some(Backend.ChatRequest(text, at.voice, at.model)))
  }

  /**
   * A send from the current render (Enter in the input field): a blank message issues
   * nothing and changes nothing; otherwise the request carries the message and the selected
   * voice and model, the conversation gains the user message and the reply's bot messages,
   * the queue holds the reply's clips when audio is on, the input is cleared and typing ends.
   */
  function HandleSend(s: Session, custom: Option<string>, response: Response, parse: Parser)
    : (r: (Session, Option<Backend.ChatRequest>))
    ensures Blank(MessageToSend(custom, s.inputText)) ==> r == (s, None)
    ensures !Blank(MessageToSend(custom, s.inputText)) ==>
      var text := MessageToSend(custom, s.inputText);
      var records := Records(CompleteLines(Concat(response.chunks)), parse);
      && r.1 == Some(Backend.ChatRequest(text, s.voice, s.model))
      && r.0.messages == s.messages + [Message(User, text)] + BotMessages(records)
      && r.0.player == (if s.audioEnabled then EnqueueAll(Idle, Urls(records)) else Idle)
      && !r.0.isBotTyping
      && r.0.inputText == ""
      && r.0.audioEnabled == s.audioEnabled && r.0.voice == s.voice && r.0.model == s.model
  {
    SendWith(s, Snapshot(s), custom, response, parse)
  }

  /** The audio toggle: flip the flag; when it was on, pause the element and empty the queue. */
  function ToggleAudio(s: Session): (r: Session)
    ensures r.audioEnabled == !s.audioEnabled
    ensures s.audioEnabled ==> r.player == Silence(s.player)
    ensures s.audioEnabled ==> r.player.queue == [] && r.player.isPlaying == s.player.isPlaying
    ensures !s.audioEnabled ==> r.player == s.player
    ensures r.(audioEnabled := s.audioEnabled, player := s.player) == s
  {
    var flipped := s.(audioEnabled := !s.audioEnabled);
    if s.audioEnabled then flipped.(player := Silence(s.player)) else flipped
  }

  /**
   * Audio turned off while a clip plays, during a reply: the read loop keeps the flag it
   * captured and queues every later clip. With no finish event arriving (the paused clip's
   * `play()` had already resolved), they wait behind the paused element and none plays
   * until the next send resets the queue.
   */
  lemma {:induction false} ToggleOffMidReplyStallsAudio(s: Session, lines: seq<string>, parse: Parser)
    requires s.audioEnabled && s.player.isPlaying
    ensures ProcessLines(ToggleAudio(s), lines, parse, true).player
         == Player(Urls(Records(lines, parse)), true, Silence(s.player).current)
  {
    ProcessLinesEffect(ToggleAudio(s), lines, parse, true);
    SilencedPlayerNeverRestarts(s.player, Urls(Records(lines, parse)));
  }

  /**
   * A voice turn ends by sending the transcript as a custom message, through the
   * `handleSend` of the render in which recording started: `at` holds the input, voice,
   * model and audio flag of that render, whatever was picked while recording. A failed
   * transcription sends nothing; an empty transcript is falsy, so the send falls back to the
   * input field as it was then; a transcript that trims to empty sends nothing.
   */
  function VoiceTurn(s: Session, at: Captured, reply: Option<Backend.TranscriptReply>, response: Response, parse: Parser)
    : (r: (Session, Option<Backend.ChatRequest>))
    ensures reply.None? ==> r == (s, None)
    ensures reply.Some? && Blank(MessageToSend(Some(reply.value.text), at.inputText)) ==> r == (s, None)
    ensures reply.Some? && !Blank(reply.value.text) ==>
      r.1 == Some(Backend.ChatRequest(reply.value.text, at.voice, at.model))
    ensures reply.Some? && reply.value.text == "" && !Blank(at.inputText) ==>
      r.1 == Some(Backend.ChatRequest(at.inputText, at.voice, at.model))
    ensures reply.Some? && !Blank(MessageToSend(Some(reply.value.text), at.inputText)) ==>
      var text := MessageToSend(Some(reply.value.text), at.inputText);
      var records := Records(CompleteLines(Concat(response.chunks)), parse);
      && r.0.messages == s.messages + [Message(User, text)] + BotMessages(records)
      && r.0.player == (if at.audioEnabled then EnqueueAll(Idle, Urls(records)) else Idle)
      && !r.0.isBotTyping
      && r.0.inputText == ""
      && r.0.audioEnabled == s.audioEnabled && r.0.voice == s.voice && r.0.model == s.model
  {
    match reply
    case None => (s, None)
    case Some(transcript) => SendWith(s, at, Some(transcript.text), response, parse)
  }

  /**
   * When nothing changed while recording, a voice turn with a non-empty transcript issues
   * the request typing that transcript and pressing Enter would, and when the transcript is
   * not blank it leaves the same session too.
   */
  lemma VoiceTurnIsTypedSend(s: Session, t: string, response: Response, parse: Parser)
    requires t != ""
    ensures VoiceTurn(s, Snapshot(s), Some(Backend.TranscriptReply(t)), response, parse).1
         == HandleSend(s.(inputText := t), None, response, parse).1
    ensures !Blank(t) ==>
      VoiceTurn(s, Snapshot(s), Some(Backend.TranscriptReply(t)), response, parse)
      == HandleSend(s.(inputText := t), None, response, parse)
  {
  }

  /**
   * The widget as mounted has audio on, the first offered voice, which the backend maps, and
   * the model the backend would default to: a first typed message is requested with those,
   * is followed by the reply's bot messages, and queues the reply's clips.
   */
  lemma MountedSendUsesMappedVoice(text: string, response: Response, parse: Parser)
    requires !Blank(text)
    ensures var r := HandleSend(Initial.(inputText := text), None, response, parse);
            var records := Records(CompleteLines(Concat(response.chunks)), parse);
            && r.1 == Some(Backend.ChatRequest(text, "en-US-Standard-A", Backend.DefaultModel))
            && r.1.value.voice in Backend.VoiceMap && r.1.value.voice != Backend.DefaultVoice
            && r.0.messages == [Message(User, text)] + BotMessages(records)
            && r.0.player == EnqueueAll(Idle, Urls(records))
  {
    assert [] + [Message(User, text)] == [Message(User, text)];
  }

  /** Every voice the widget offers is a key of the backend's voice map, and nothing else is. */
  lemma OfferedVoicesAreMapped()
    ensures forall v :: v in VoiceIds <==> v in Backend.VoiceMap
  {
  }
}

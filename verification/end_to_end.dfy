/**
 * The reply path end to end: the backend serialises its records one JSON object per line,
 * the transport cuts the body into chunks anywhere, and the widget's send cycle frames,
 * parses and shows them. `JSON.parse` is not modelled; what the widget needs of it is that
 * it reads back every line the backend writes.
 */
module EndToEnd {
  import opened Wrappers
  import opened Text
  import opened Framing
  import opened JsonRecord
  import opened Playback
  import opened Backend
  import opened Chat

  /** The parser reads back every record the backend serialises. */
  ghost predicate ParsesEncoded(parse: Parser)
  {
    forall r :: parse(EncodeRecord(r)) == Some(r)
  }

  /** The reference decoder is such a parser, so the hypothesis below can be met. */
  lemma {:induction false} ReferenceDecoderParsesEncoded()
    ensures ParsesEncoded(DecodeRecord)
  {
    forall r: StreamRecord ensures DecodeRecord(EncodeRecord(r)) == Some(r) {
      DecodeEncode(r);
    }
  }

  /** A serialised line starts with `{`, so it is not blank, and it parses to its record. */
  lemma {:induction false} EncodedLineRecord(r: StreamRecord, parse: Parser)
    requires ParsesEncoded(parse)
    ensures LineRecords(EncodeRecord(r), parse) == [r]
  {
    var line := EncodeRecord(r);
    assert !IsJsSpace(line[0]);
    assert !Blank(line);
  }

  lemma EncodedLinesPrefix(records: seq<StreamRecord>, k: nat)
    requires k <= |records|
    ensures EncodedLines(records)[..k] == EncodedLines(records[..k])
  {
  }

  /** Lines that each yield one given record yield those records, in order. */
  lemma {:induction false} RecordsOfLines(lines: seq<string>, records: seq<StreamRecord>, parse: Parser)
    requires |lines| == |records|
    requires forall i {:trigger LineRecords(lines[i], parse)} ::
      0 <= i < |lines| ==> LineRecords(lines[i], parse) == [records[i]]
    ensures Records(lines, parse) == records
    decreases |lines|
  {
    if lines != [] {
      var n := |lines|;
      var init := lines[..n - 1];
      RecordsOfLines(init, records[..n - 1], parse);
      assert LineRecords(lines[n - 1], parse) == [records[n - 1]];
      assert Records(lines, parse) == Records(init, parse) + LineRecords(lines[n - 1], parse);
      assert records[..n - 1] + [records[n - 1]] == records;
    }
  }

  /** Every serialised line is non-blank and parses, so the lines give back their records. */
  lemma {:induction false} RecordsOfEncodedLines(records: seq<StreamRecord>, parse: Parser)
    requires ParsesEncoded(parse)
    ensures Records(EncodedLines(records), parse) == records
  {
    var lines := EncodedLines(records);
    forall i | 0 <= i < |lines| ensures LineRecords(lines[i], parse) == [records[i]] {
      EncodedLineRecord(records[i], parse);
    }
    RecordsOfLines(lines, records, parse);
  }

  /**
   * However the transport chunks a body of serialised records, a send shows the user
   * message and then one bot message per record, in order; with audio on the clips are
   * queued in the same order and the first one plays.
   */
  lemma {:induction false} WholeStreamShown(s: Session, custom: Option<string>, records: seq<StreamRecord>,
                         chunks: seq<string>, end: StreamEnd, parse: Parser)
    requires ParsesEncoded(parse)
    requires !Blank(MessageToSend(custom, s.inputText))
    requires Concat(chunks) == Terminated(EncodedLines(records))
    ensures HandleSend(s, custom, Response(chunks, end), parse).0.messages
         == s.messages + [Message(User, MessageToSend(custom, s.inputText))] + BotMessages(records)
    ensures HandleSend(s, custom, Response(chunks, end), parse).0.player
         == if s.audioEnabled && records != []
            then Player(Urls(records), true, Some(Clip(records[0].audioUrl, false)))
            else Idle
  {
    var lines := EncodedLines(records);
    assert Terminated(lines) + "" == Concat(chunks);
    UnterminatedTailNeverFramed(lines, "");
    RecordsOfEncodedLines(records, parse);
    EnqueueAllFromIdle(Urls(records));
  }

  /**
   * The body of `generate_responses`, chunked anyhow: after the user message the send shows
   * bot message i holding sentence i trimmed, for every sentence the backend got to.
   */
  lemma {:induction false} SerialiseFrameRoundTrip(s: Session, custom: Option<string>, sentences: seq<string>,
                                voice: string, synthesise: (string, string) -> Option<string>,
                                chunks: seq<string>, end: StreamEnd, parse: Parser)
    requires ParsesEncoded(parse)
    requires !Blank(MessageToSend(custom, s.inputText))
    requires Concat(chunks) == StreamBody(GenerateResponses(sentences, voice, synthesise))
    ensures ShowsSentencesFrom(HandleSend(s, custom, Response(chunks, end), parse).0.messages,
                               |s.messages| + 1, |GenerateResponses(sentences, voice, synthesise).records|, sentences)
  {
    var e := GenerateResponses(sentences, voice, synthesise);
    RecordSentencesShown(s, custom, e.records, sentences, chunks, end, parse);
  }

  /** Records carrying the given sentences, chunked anyhow, show those sentences trimmed. */
  lemma {:induction false} RecordSentencesShown(s: Session, custom: Option<string>, records: seq<StreamRecord>,
                             sentences: seq<string>, chunks: seq<string>, end: StreamEnd, parse: Parser)
    requires ParsesEncoded(parse)
    requires !Blank(MessageToSend(custom, s.inputText))
    requires Concat(chunks) == Terminated(EncodedLines(records))
    requires |records| <= |sentences|
    requires forall i :: 0 <= i < |records| ==> records[i].sentence == sentences[i]
    ensures ShowsSentencesFrom(HandleSend(s, custom, Response(chunks, end), parse).0.messages,
                               |s.messages| + 1, |records|, sentences)
  {
    WholeStreamShown(s, custom, records, chunks, end, parse);
    SentencesAfter(HandleSend(s, custom, Response(chunks, end), parse).0.messages, s.messages,
                   Message(User, MessageToSend(custom, s.inputText)), records, sentences);
  }


  /** From position `at` on, `shown` holds sentence i trimmed as a bot message, for every i below `count`. */
  predicate ShowsSentencesFrom(shown: seq<Message>, at: nat, count: nat, sentences: seq<string>)
    requires count <= |sentences|
  {
    forall i :: 0 <= i < count ==> at + i < |shown| && shown[at + i] == Message(Bot, Trim(sentences[i]))
  }

  /**
   * When `shown` is `ms`, one more message and the records' bot messages, bot message i after
   * the first |ms| + 1 holds sentence i trimmed, as long as record i carries sentence i.
   */
  lemma {:induction false} SentencesAfter(shown: seq<Message>, ms: seq<Message>, user: Message,
                                          records: seq<StreamRecord>, sentences: seq<string>)
    requires shown == ms + [user] + BotMessages(records)
    requires |records| <= |sentences|
    requires forall i :: 0 <= i < |records| ==> records[i].sentence == sentences[i]
    ensures ShowsSentencesFrom(shown, |ms| + 1, |records|, sentences)
  {
    var bots := BotMessages(records);
    forall i | 0 <= i < |records|
      ensures |ms| + 1 + i < |shown| && shown[|ms| + 1 + i] == Message(Bot, Trim(sentences[i]))
    {
      assert shown[|ms| + 1 + i] == bots[i];
    }
  }

  /**
   * The same body shows nothing beyond one message per record written, and when the stream
   * was not aborted that is one message per sentence.
   */
  lemma {:induction false} SerialisedStreamShowsEverySentence(s: Session, custom: Option<string>, sentences: seq<string>,
                                           voice: string, synthesise: (string, string) -> Option<string>,
                                           chunks: seq<string>, end: StreamEnd, parse: Parser)
    requires ParsesEncoded(parse)
    requires !Blank(MessageToSend(custom, s.inputText))
    requires Concat(chunks) == StreamBody(GenerateResponses(sentences, voice, synthesise))
    ensures var e := GenerateResponses(sentences, voice, synthesise);
            var shown := HandleSend(s, custom, Response(chunks, end), parse).0.messages;
            && |shown| == |s.messages| + 1 + |e.records|
            && (!e.aborted ==> |shown| == |s.messages| + 1 + |sentences|)
  {
    var e := GenerateResponses(sentences, voice, synthesise);
    WholeStreamShown(s, custom, e.records, chunks, end, parse);
  }

  /**
   * With a mapped voice and a synthesiser that never fails, the body of `generate_responses`,
   * chunked anyhow, shows after the user message exactly one bot message per sentence, each
   * sentence trimmed, and with audio on queues every sentence's clip in order.
   */
  lemma {:induction false} WorkingVoiceShowsEverySentence(s: Session, custom: Option<string>, sentences: seq<string>,
                                       voice: string, synthesise: (string, string) -> Option<string>,
                                       chunks: seq<string>, end: StreamEnd, parse: Parser)
    requires ParsesEncoded(parse)
    requires !Blank(MessageToSend(custom, s.inputText))
    requires voice in VoiceMap
    requires forall i :: 0 <= i < |sentences| ==> synthesise(sentences[i], VoiceMap[voice]).Some?
    requires Concat(chunks) == StreamBody(GenerateResponses(sentences, voice, synthesise))
    ensures var after := HandleSend(s, custom, Response(chunks, end), parse).0;
            && |after.messages| == |s.messages| + 1 + |sentences|
            && (forall i :: 0 <= i < |sentences| ==>
                  after.messages[|s.messages| + 1 + i] == Message(Bot, Trim(sentences[i])))
            && (s.audioEnabled ==>
                  && |after.player.queue| == |sentences|
                  && forall i :: 0 <= i < |sentences| ==>
                       after.player.queue[i] == AudioUrlPrefix + synthesise(sentences[i], VoiceMap[voice]).value)
  {
    var e := GenerateResponses(sentences, voice, synthesise);
    WorkingSynthesiserWritesEverySentence(sentences, voice, synthesise);
    SerialisedStreamShowsEverySentence(s, custom, sentences, voice, synthesise, chunks, end, parse);
    SerialiseFrameRoundTrip(s, custom, sentences, voice, synthesise, chunks, end, parse);
    WholeStreamShown(s, custom, e.records, chunks, end, parse);
  }

  /** The bot message after `head` for record i holds that record's sentence, trimmed. */
  lemma ShownSentence(head: seq<Message>, records: seq<StreamRecord>, i: nat)
    requires i < |records|
    ensures |head| + i < |head + BotMessages(records)|
    ensures (head + BotMessages(records))[|head| + i] == Message(Bot, Trim(records[i].sentence))
  {
  }

  /**
   * A stream cut anywhere, by the network or by the backend raising: the send shows one bot
   * message for every record whose line feed arrived, in order, and nothing of the record
   * cut short.
   */
  lemma {:induction false} CutStreamKeepsWholeRecords(s: Session, custom: Option<string>, records: seq<StreamRecord>,
                                   chunks: seq<string>, end: StreamEnd, parse: Parser)
    requires ParsesEncoded(parse)
    requires !Blank(MessageToSend(custom, s.inputText))
    requires |Concat(chunks)| <= |Terminated(EncodedLines(records))|
    requires Concat(chunks) == Terminated(EncodedLines(records))[..|Concat(chunks)|]
    ensures NewlineCount(Concat(chunks)) <= |records|
    ensures HandleSend(s, custom, Response(chunks, end), parse).0.messages
         == s.messages + [Message(User, MessageToSend(custom, s.inputText))]
            + BotMessages(records[..NewlineCount(Concat(chunks))])
  {
    var lines := EncodedLines(records);
    var t := Concat(chunks);
    PrefixFramesArrivedLines(lines, t);
    var k := NewlineCount(t);
    EncodedLinesPrefix(records, k);
    RecordsOfEncodedLines(records[..k], parse);
  }
}

# Streamed chat replies: a Dafny model

This project models the streamed-reply pipeline of a voice customer-service assistant.

**Backend.** The chat endpoint takes a message, a voice id and a model id. For each sentence of the model's reply, `generate_responses` synthesises a clip and writes one line: the JSON object `{"sentence": …, "audioUrl": …}` followed by a line feed. The voice is looked up in a fixed four-entry map. Every clip is a `data:audio/mp3;base64,` URL.

**Chat widget.**
- On send, it rejects a message that trims to empty, resets the audio queue, appends the user message and shows a typing indicator.
- It reads the reply body chunk by chunk. Each chunk is appended to a text buffer, which is split on line feeds. The last piece becomes the new buffer.
- Each complete, non-blank line is parsed. A parse that throws is skipped. Otherwise the line adds a bot message holding the trimmed sentence and, if audio is on, queues the clip.
- The queue is a FIFO with an `isPlaying` flag. The head plays. When it ends or fails to play, the head is shifted off and the next clip starts.
- The audio toggle pauses the current clip and empties the queue.

Modules, one per file:
- `Wrappers`: `Option` and `Result`.
- `Text`: `String.prototype.trim`.
- `Framing`: `split('\n')` and the chunk framing.
- `JsonRecord`: `json.dumps` of the two-key record, and a reference decoder.
- `Backend`: the voice map, `text_to_speech` and `generate_responses`.
- `Playback`: the audio queue.
- `Chat`: the send cycle, the read loop and the toggle.
- `EndToEnd`: the path serialise, chunk, frame, parse and show.

Quirks of the code that the model keeps:
- **No stale-event guard.** A playback event is never checked against the clip it came from, so a stale `ended` or rejected `play()` removes the head. If that was the last entry it clears `isPlaying`; otherwise it starts the next entry at once. Either way nothing pauses the element of the clip it removed, which keeps playing (`Playback.StaleFinishDropsNewClip`, `Playback.StaleFinishStartsNextOverDroppedClip`).
- **The toggle does not clear `isPlaying`.** Turning audio off empties the queue and pauses, but leaves the flag set. Once the paused clip's `play()` has resolved, later clips of the same reply therefore queue behind a paused element and never start (`Chat.ToggleOffMidReplyStallsAudio`).
- **A callback sees the render that created it.** A typed send reads the input, voice, model and audio flag as they were when Enter was pressed; its read loop keeps that audio flag even if the toggle flips it. A voice turn runs the `handleSend` of the render in which recording started, so its input fallback, voice, model and audio flag are those of that moment, whatever was picked while recording (`Chat.SendWith`, `Chat.VoiceTurn`).

## Model

| member | source | states |
|---|---|---|
| Text.TrimShape | frontend/src/components/CustomerServiceChat.tsx:107 | what `trim()` leaves is empty exactly when the input is all ECMAScript white space; otherwise it is the contiguous middle of the input, with no white space at either edge and only white space cut off either side |
| Text.TrimEmptyIffBlank | frontend/src/components/CustomerServiceChat.tsx:107 | `trim()` gives the empty string exactly when every character is ECMAScript white space or a line terminator |
| Text.TrimCharacterised | frontend/src/components/CustomerServiceChat.tsx:147 | white space, then a core with non-space edges, then white space, trims to exactly that core |
| Framing.Split | frontend/src/components/CustomerServiceChat.tsx:141 | `split('\n')` yields at least one piece; no piece holds a line feed; the pieces before the last, each followed by a line feed, and then the last piece, rebuild the input |
| Framing.SplitTerminated | frontend/src/components/CustomerServiceChat.tsx:141 | splitting line-feed-free lines, each terminated, plus a line-feed-free tail gives back exactly those lines and the tail |
| Framing.FeedChunk | frontend/src/components/CustomerServiceChat.tsx:140-143 | one read step: the lines handed out, each terminated, and then the new buffer, are exactly the old buffer followed by the chunk; neither holds a line feed |
| Framing.FrameAll | frontend/src/components/CustomerServiceChat.tsx:132-145 | after any number of chunks, the emitted lines, each followed by a line feed, and then the buffer, concatenate to exactly the text received so far |
| Framing.FrameAllIsSplit | frontend/src/components/CustomerServiceChat.tsx:132-145 | the lines and buffer after any chunking are the complete lines and the remainder of the concatenated text |
| Framing.ChunkingInvariance | frontend/src/components/CustomerServiceChat.tsx:132-145 | two chunkings of the same text give the same lines and the same buffer |
| Framing.UnterminatedTailNeverFramed | frontend/src/components/CustomerServiceChat.tsx:136-143 | text after the last line feed is never a complete line: only the terminated lines come out, and the tail stays in the buffer |
| Framing.PrefixFramesArrivedLines | frontend/src/components/CustomerServiceChat.tsx:136-145 | a body of terminated lines cut at any point frames to exactly the first k lines, where k is the number of line feeds received; nothing of the cut line is handed out |
| JsonRecord.EscapeChar | backend/src/main.py:117-120 | each character's `ensure_ascii` escape is non-empty printable ASCII |
| JsonRecord.Escape | backend/src/main.py:117-120 | an escaped string is printable ASCII, so it contains no raw line feed |
| JsonRecord.Hex4RoundTrip | backend/src/main.py:117-120 | the four lower-case hex digits of a `\u` escape read back to the code unit |
| JsonRecord.EncodeRecord | backend/src/main.py:117-120 | the serialised record is printable ASCII, contains no line feed, and starts with `{` |
| JsonRecord.ParseEscape | backend/src/main.py:117-120 | reading an escaped string body up to its closing quote gives back the original string and the text after the quote |
| JsonRecord.DecodeEncode | backend/src/main.py:117-120 | decoding a serialised record gives back the record |
| Backend.LookupVoice | backend/src/main.py:46-51 | the lookup succeeds exactly for the four keys of the map, and yields the synthesiser voice that key maps to |
| Backend.TextToSpeech | backend/src/main.py:53-83 | an unknown voice id fails with that id; otherwise the call succeeds exactly when synthesis does, and the result starts with `data:audio/mp3;base64,` |
| Backend.GenerateResponses | backend/src/main.py:113-123 | the records written are one per sentence, in order, for a prefix of the sentences; record i's URL is the clip `text_to_speech` gives sentence i; the stream aborts exactly when the prefix is short, and then synthesis of the first sentence without a record failed; an unknown voice aborts before any record |
| Backend.WorkingSynthesiserWritesEverySentence | backend/src/main.py:113-120 | with a mapped voice and a synthesiser that succeeds on every sentence, the stream is not aborted and record i is sentence i with its synthesised clip |
| Backend.EncodedLines | backend/src/main.py:117-120 | line i of the body is record i serialised; no line contains a line feed |
| Backend.OmittedVoiceAbortsStream | backend/src/main.py:43 | a request with the default voice writes no record and aborts |
| Playback.Finish | frontend/src/components/CustomerServiceChat.tsx:91-102 | an ended or failed clip removes exactly the head; the next entry starts if there is one; otherwise the player goes idle |
| Playback.Enqueue | frontend/src/components/CustomerServiceChat.tsx:156-160 | a clip joins the back of the queue and the player is playing afterwards; a playing clip is kept; an idle player starts the head |
| Playback.Reset | frontend/src/components/CustomerServiceChat.tsx:110-113 | after the reset the queue is empty, nothing is playing and there is no current element |
| Playback.Silence | frontend/src/components/CustomerServiceChat.tsx:256-259 | turning audio off empties the queue and pauses the current element, and leaves `isPlaying` as it was |
| Playback.EnqueueAllFromIdle | frontend/src/components/CustomerServiceChat.tsx:156-160 | from idle, a reply's clips are all queued in order with the first playing |
| Playback.SilencedPlayerNeverRestarts | frontend/src/components/CustomerServiceChat.tsx:254-259 | after audio is turned off mid-clip, later clips only queue behind the paused element; none starts |
| Playback.StaleFinishDropsNewClip | frontend/src/components/CustomerServiceChat.tsx:91-113 | a late finish event from a clip of the previous reply removes the new reply's clip from the queue and clears the flag, while that clip's element stays current and unpaused |
| Playback.StaleFinishStartsNextOverDroppedClip | frontend/src/components/CustomerServiceChat.tsx:91-113 | the same late event with two clips of the new reply queued removes the first, whose element is never paused, and starts the second at once |
| Playback.PlaysInPushOrder | frontend/src/components/CustomerServiceChat.tsx:81-103 | from idle, under any mix of pushes and live finish events, the clips started are the pushed ones in push order, none skipped or repeated; a playing queue holds the playing entry and every later push; an idle player has started every push |
| Playback.DrainEndsIdle | frontend/src/components/CustomerServiceChat.tsx:81-103 | one finish event per queued clip, each ended or failed, starts the remaining entries in order and leaves the player idle with an empty queue |
| Chat.LineRecords | frontend/src/components/CustomerServiceChat.tsx:145-166 | a blank line yields nothing; a non-blank line yields nothing exactly when its parse throws, and otherwise yields its parsed record |
| Chat.BotMessages | frontend/src/components/CustomerServiceChat.tsx:150-154 | one bot message per record, in order, holding the trimmed sentence |
| Chat.Urls | frontend/src/components/CustomerServiceChat.tsx:157 | the records' clip locators, in order |
| Chat.ProcessLineEffect | frontend/src/components/CustomerServiceChat.tsx:145-166 | one line appends the message of the record it yields, if any, and queues its clip when audio is on; a skipped line changes nothing |
| Chat.ProcessLinesEffect | frontend/src/components/CustomerServiceChat.tsx:145-166 | the lines of a reply append one bot message per record they yield, queue the clips when audio is on, and change nothing else; a failing line does not stop the ones after it |
| Chat.ForEachLine | frontend/src/components/CustomerServiceChat.tsx:145-166 | the inner loop over the lines of one chunk appends one bot message per record those lines yield, queues their clips when audio is on, and changes nothing else |
| Chat.ReadLoop | frontend/src/components/CustomerServiceChat.tsx:132-167 | the chunk-by-chunk loop appends the bot messages of exactly the complete lines of the text received, wherever the chunks were cut, queues their clips only when audio is on, and leaves every other field alone |
| Chat.BeginSend | frontend/src/components/CustomerServiceChat.tsx:105-118 | nothing happens exactly when the custom message, or the input field when that is empty, trims to empty; otherwise the audio is reset, the user message is appended, the input is cleared and typing is shown, and nothing else changes |
| Chat.SendWith | frontend/src/components/CustomerServiceChat.tsx:105-175 | a send by a `handleSend` created in an earlier render takes the input, voice, model and audio flag from that render and the messages and audio state as they are now; a blank message changes nothing; otherwise the request, the messages, the queue, the cleared input and the ended typing are pinned and nothing else changes |
| Chat.HandleSend | frontend/src/components/CustomerServiceChat.tsx:105-175 | a blank message issues no request and changes nothing; otherwise the request carries the message, voice and model; the messages become the user message and then the bot messages of the framed lines; the queue holds their clips when audio is on; the input is cleared; typing ends false whether the stream finished or broke |
| Chat.ToggleAudio | frontend/src/components/CustomerServiceChat.tsx:254-259 | the flag flips; turning audio off pauses the current element and empties the queue, leaving `isPlaying` as it was; turning it on changes no audio state; nothing else changes |
| Chat.ToggleOffMidReplyStallsAudio | frontend/src/components/CustomerServiceChat.tsx:156-160 | when audio is turned off mid-clip during a reply and no finish event arrives (the paused clip's `play()` had resolved), the reply's later clips are queued but none plays |
| Chat.VoiceTurn | frontend/src/components/CustomerServiceChat.tsx:177-205 | the transcript is sent by the `handleSend` of the render where recording started: a failed transcription sends nothing; a transcript that trims to empty sends nothing; an empty transcript falls back to the input field as it was then; a non-blank message goes out with that render's voice and model, and the session afterwards is pinned as for any send |
| Chat.VoiceTurnIsTypedSend | frontend/src/components/CustomerServiceChat.tsx:187-205 | when nothing changed while recording, a voice turn with a non-empty transcript issues the request that typing it and pressing Enter would, and leaves the same session when it is not blank |
| Chat.OfferedVoicesAreMapped | backend/src/main.py:46-51 | the voice ids the widget offers are exactly the keys of the backend's voice map |
| Chat.MountedSendUsesMappedVoice | frontend/src/components/CustomerServiceChat.tsx:23-30 | from the widget as mounted, a non-blank typed message requests voice `en-US-Standard-A`, a key of the voice map other than the fallback, and the backend's default model, shows the user message then the reply's bot messages, and queues the reply's clips |
| EndToEnd.ReferenceDecoderParsesEncoded | backend/src/main.py:117-120 | a parser that reads back every serialised record exists, so the end-to-end hypothesis can be met |
| EndToEnd.RecordsOfEncodedLines | frontend/src/components/CustomerServiceChat.tsx:147-148 | with such a parser, the serialised lines yield back exactly their records, in order |
| EndToEnd.WholeStreamShown | frontend/src/components/CustomerServiceChat.tsx:132-167 | however a body of serialised records is chunked, the send shows the user message, then one bot message per record in order; with audio on, the clips queue in order with the first playing |
| EndToEnd.RecordSentencesShown | frontend/src/components/CustomerServiceChat.tsx:145-155 | serialised records carrying given sentences, chunked in any way, show after the user message bot message i holding sentence i trimmed |
| EndToEnd.SerialiseFrameRoundTrip | backend/src/main.py:113-123 | for the body `generate_responses` writes, chunked in any way, bot message i after the user message holds sentence i trimmed, for every sentence a record was written for |
| EndToEnd.SerialisedStreamShowsEverySentence | backend/src/main.py:113-123 | the same body shows exactly one bot message per record written, and one per sentence when the stream was not aborted |
| EndToEnd.WorkingVoiceShowsEverySentence | backend/src/main.py:113-123 | with a mapped voice and a synthesiser that never fails, the body chunked in any way shows after the user message exactly one bot message per sentence, trimmed, in order, and with audio on queues every sentence's clip in order |
| EndToEnd.CutStreamKeepsWholeRecords | frontend/src/components/CustomerServiceChat.tsx:136-167 | a body cut off anywhere shows one bot message for each record whose line feed arrived, in order, and nothing of the record cut short |

## Left out

**Byte decoding.**
- Chunks are modelled as already-decoded text.
- `decoder.decode(value)` is called without the streaming flag, so a multi-byte UTF-8 character split across chunks can be corrupted. The model makes no claim about byte-level chunking.

**JSON parsing.**
- `JSON.parse` is a parameter, a partial function from a line to a record.
- The end-to-end lemmas assume it reads back every serialised record. `JsonRecord.DecodeRecord` shows such a parser exists.
- A parsed object without a string `sentence` is treated like a parse that throws. In the code, `sentence.trim()` runs inside the state updater, outside the `try`, and the clip is still queued.
- An object without `audioUrl` would queue `undefined`. Records here always carry a URL.

**Timing and framework behaviour.**
- No real async timing, React state batching or `Audio.play()` promise semantics.
- Within `Chat.HandleSend`, no playback events are interleaved with the read loop. `Playback.Run` models interleaved pushes and finish events on their own.
- The rejection of a pending `play()` by the reset's pause is covered only through the stale-event lemma.
- A stale event that shifts the queue does not pause the element it leaves playing. If more entries were queued, the next one starts at once over it; otherwise the next push starts a second element over it. The model keeps a single current element, so in both cases the overlap of two playing clips is not represented.
- `currentTime = 0` is folded into the `paused` mark of a clip.
- Chat.ToggleOffMidReplyStallsAudio: assumes no finish event after the toggle. If the toggle's pause interrupts a `play()` that is still pending, the rejection shifts the queue and calls `playNextInQueue`, which clears `isPlaying`, and the reply's later clips then start although audio is off.

**Overlapping sends.** The microphone button is disabled only while speech is being transcribed, so a voice turn can start a second `handleSend` while a reply is still streaming. Its reset empties the queue while the first read loop keeps appending messages and pushing clips. `Chat.HandleSend` and `Chat.SendWith` treat a send as atomic and do not model that interleaving.

**Browser and device I/O.**
- Left out: microphone capture, `MediaRecorder`, `getUserMedia`, device enumeration and the `stopCurrentAudio` call when recording starts.
- `Chat.VoiceTurn` begins at the transcript reply.
- The `isProcessingSpeech` flag, rendering, scrolling and the loading dots are not modelled.

**Message ids.** Ids come from `Date.now()` and are not modelled, so the model says nothing about their uniqueness.

**Backend internals.**
- Whisper, ffmpeg, temporary files, the speech client and base64 are not modelled.
- Synthesis is the parameter `synthesise`. A thrown exception is `None`.
- The speech-to-text endpoint is reduced to its reply shape, `Backend.TranscriptReply`, a record whose only field is `text`. How FastAPI encodes that reply is not modelled.

**The language-model call.** `get_response` in backend/src/assistant.py is modelled as an arbitrary finite sequence of sentences. The current code yields exactly one. A `get_response` that raises also aborts the stream, before any record or after some; `Backend.GenerateResponses` takes the sentences as given, so in the model only a failing synthesis aborts.

**Transport.** FastAPI's streaming, CORS and the media type are not modelled. The body is the concatenation of the yielded lines.

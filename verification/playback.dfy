/**
 * The widget's audio queue: a FIFO of clip locators, an `isPlaying` flag and the current
 * audio element. The head of the queue is what plays; when it ends or fails to play, the
 * head is dropped and the next one starts. No generation token ties a finish event to the
 * element it came from.
 */
module Playback {
  import opened Wrappers

  /** An audio element: its source and whether it has been paused and rewound. */
  datatype Clip = Clip(src: string, paused: bool)

  /** The queue, the `isPlaying` flag and the current element. */
  datatype Player = Player(queue: seq<string>, isPlaying: bool, current: Option<Clip>)

  /** The state at mount and right after a send resets audio. */
  const Idle: Player := Player([], false, None)

  /** How a clip's playback finished: its `ended` event, or its `play()` rejecting. */
  datatype Outcome = Ended | Failed

  /** `stopCurrentAudio`: pause and rewind the current element, if there is one. */
  function StopCurrent(p: Player): Player
  {
    match p.current
    case None => p
    case Some(clip) => p.(current := Some(clip.(paused := true)))
  }

  /** `playNextInQueue`: go idle on an empty queue, otherwise start a new element for the head. */
  function PlayNext(p: Player): Player
  {
    if p.queue == [] then p.(isPlaying := false)
    else p.(isPlaying := true, current := Some(Clip(p.queue[0], false)))
  }

  /** `Array.prototype.shift`: drop the first element; an empty array stays empty. */
  function Shift(q: seq<string>): seq<string>
  {
    if q == [] then [] else q[1..]
  }

  /**
   * The handler shared by `onended` and the rejected `play()`: exactly the head is removed,
   * the next entry starts if there is one, and an empty queue leaves the player idle.
   */
  function Finish(p: Player, outcome: Outcome): (r: Player)
    ensures r.queue == (if p.queue == [] then [] else p.queue[1..])
    ensures r.isPlaying <==> |p.queue| > 1
    ensures r.isPlaying ==> r.current == Some(Clip(p.queue[1], false))
    ensures !r.isPlaying ==> r.current == p.current
  {
    PlayNext(p.(queue := Shift(p.queue)))
  }

  /**
   * A record's clip arriving while audio is on: it joins the back of the queue, and playback
   * starts at the head only when nothing is playing.
   */
  function Enqueue(p: Player, url: string): (r: Player)
    ensures r.queue == p.queue + [url]
    ensures r.isPlaying
    ensures p.isPlaying ==> r.current == p.current
    ensures !p.isPlaying ==> r.current == Some(Clip(r.queue[0], false))
  {
    var pushed := p.(queue := p.queue + [url]);
    if p.isPlaying then pushed else PlayNext(pushed)
  }

  /** The clips of a reply joining the queue one after the other. */
  function EnqueueAll(p: Player, urls: seq<string>): Player
  {
    if urls == [] then p else Enqueue(EnqueueAll(p, urls[..|urls| - 1]), urls[|urls| - 1])
  }

  /** The audio reset at the start of a send: whatever played is stopped and forgotten. */
  function Reset(p: Player): (r: Player)
    ensures r == Idle
  {
    StopCurrent(p).(queue := [], isPlaying := false, current := None)
  }

  /**
   * Turning audio off: the current element is paused and the queue emptied, but the
   * `isPlaying` flag keeps whatever value it had.
   */
  function Silence(p: Player): (r: Player)
    ensures r.queue == [] && r.isPlaying == p.isPlaying
    ensures p.current.None? ==> r.current.None?
    ensures p.current.Some? ==> r.current == Some(Clip(p.current.value.src, true))
  {
    StopCurrent(p).(queue := [])
  }

  /** From idle, a reply's clips leave the first one playing and all of them queued in order. */
  lemma {:induction false} EnqueueAllFromIdle(urls: seq<string>)
    ensures EnqueueAll(Idle, urls)
         == if urls == [] then Idle else Player(urls, true, Some(Clip(urls[0], false)))
    decreases |urls|
  {
    if urls != [] {
      var init := urls[..|urls| - 1];
      EnqueueAllFromIdle(init);
      assert init + [urls[|urls| - 1]] == urls;
      if init != [] {
        assert init[0] == urls[0];
      }
    }
  }

  /**
   * Once audio is turned off while a clip plays, the flag stays set: with no finish event
   * arriving (the paused clip's `play()` had already resolved), clips queued afterwards wait
   * behind a paused element and none starts.
   */
  lemma {:induction false} SilencedPlayerNeverRestarts(p: Player, urls: seq<string>)
    requires p.isPlaying
    ensures EnqueueAll(Silence(p), urls) == Player(urls, true, Silence(p).current)
    decreases |urls|
  {
    if urls != [] {
      SilencedPlayerNeverRestarts(p, urls[..|urls| - 1]);
      SilencedStep(p, urls);
    }
  }

  lemma {:induction false} SilencedStep(p: Player, urls: seq<string>)
    requires p.isPlaying && urls != []
    requires EnqueueAll(Silence(p), urls[..|urls| - 1]) == Player(urls[..|urls| - 1], true, Silence(p).current)
    ensures EnqueueAll(Silence(p), urls) == Player(urls, true, Silence(p).current)
  {
    SnocLast(urls);
  }

  /** A non-empty sequence is its prefix without the last element, then that element. */
  lemma SnocLast(xs: seq<string>)
    requires xs != []
    ensures xs[..|xs| - 1] + [xs[|xs| - 1]] == xs
  {
  }

  /**
   * Nothing ties a finish event to its element. Send, play `a`, send again so the reset
   * queues `c` alone and starts its element: if `a`'s late event arrives now (a rejected
   * `play()` after the pause, say), it removes `c` from the queue and clears the flag, but
   * nothing pauses `c`'s element, which is still the current one and still playing.
   */
  lemma StaleFinishDropsNewClip(a: string, c: string, outcome: Outcome)
    ensures var before := Enqueue(Idle, a);
            var after := Enqueue(Reset(before), c);
            after.current == Some(Clip(c, false))
            && Finish(after, outcome).queue == []
            && !Finish(after, outcome).isPlaying
            && Finish(after, outcome).current == Some(Clip(c, false))
  {
  }

  /**
   * The same stale event when two clips of the new reply are queued: it removes `c`, whose
   * element is not paused, and starts `d` at once, so two elements play over each other.
   */
  lemma StaleFinishStartsNextOverDroppedClip(a: string, c: string, d: string, outcome: Outcome)
    ensures var before := Enqueue(Idle, a);
            var after := Enqueue(Enqueue(Reset(before), c), d);
            after.current == Some(Clip(c, false))
            && Finish(after, outcome).queue == [d]
            && Finish(after, outcome).isPlaying
            && Finish(after, outcome).current == Some(Clip(d, false))
  {
  }

  /** What the player receives: a clip to queue, or the end of the current clip. */
  datatype Input = Push(url: string) | Finished(outcome: Outcome)

  /** One input, and the sources of the elements it started (at most one). */
  function Step(p: Player, input: Input): (Player, seq<string>)
  {
    match input
    case Push(url) =>
      var r := Enqueue(p, url);
      (r, if p.isPlaying then [] else [r.queue[0]])
    case Finished(outcome) =>
      var r := Finish(p, outcome);
      (r, if r.isPlaying then [r.queue[0]] else [])
  }

  /** A run of inputs: the final player and every source started, in order. */
  function Run(p: Player, inputs: seq<Input>): (Player, seq<string>)
    decreases |inputs|
  {
    if inputs == [] then (p, [])
    else
      var first := Step(p, inputs[0]);
      var rest := Run(first.0, inputs[1..]);
      (rest.0, first.1 + rest.1)
  }

  /** Every finish event of the run is for a clip that is playing (none is stale). */
  predicate Live(p: Player, inputs: seq<Input>)
    decreases |inputs|
  {
    inputs == [] ||
    ((inputs[0].Finished? ==> p.isPlaying) && Live(Step(p, inputs[0]).0, inputs[1..]))
  }

  /** The locators pushed by a run, in order. */
  function Pushed(inputs: seq<Input>): seq<string>
  {
    if inputs == [] then []
    else (if inputs[0].Push? then [inputs[0].url] else []) + Pushed(inputs[1..])
  }

  /**
   * The queue mirrors the pushes: what has started is a prefix of what was pushed, the
   * queue is the last started entry and everything pushed after it, and an idle player has
   * started everything.
   */
  predicate Tracks(p: Player, pushed: seq<string>, started: seq<string>)
  {
    && |started| <= |pushed|
    && started == pushed[..|started|]
    && if p.isPlaying then
         && |started| >= 1
         && p.queue == pushed[|started| - 1..]
         && p.current == Some(Clip(pushed[|started| - 1], false))
       else
         p.queue == [] && started == pushed
  }

  lemma {:induction false} StepTracks(p: Player, input: Input, pushed: seq<string>, started: seq<string>)
    requires Tracks(p, pushed, started)
    requires input.Finished? ==> p.isPlaying
    ensures Tracks(Step(p, input).0, pushed + Pushed([input]), started + Step(p, input).1)
  {
    assert [input][1..] == [];
    match input
    case Push(url) =>
      assert Pushed([input]) == [url];
      PushTracks(p, url, pushed, started);
    case Finished(outcome) =>
      assert Pushed([input]) == [];
      assert pushed + [] == pushed;
      FinishTracks(p, outcome, pushed, started);
  }

  lemma {:induction false} PushTracks(p: Player, url: string, pushed: seq<string>, started: seq<string>)
    requires Tracks(p, pushed, started)
    ensures Tracks(Enqueue(p, url), pushed + [url], started + (if p.isPlaying then [] else [url]))
  {
    var pushed' := pushed + [url];
    if p.isPlaying {
      assert started + [] == started;
      assert pushed'[|started| - 1..] == pushed[|started| - 1..] + [url];
      assert pushed'[..|started|] == pushed[..|started|];
    } else {
      assert pushed'[..|started| + 1] == pushed' == started + [url];
      assert pushed'[|started|..] == [url];
    }
  }

  lemma {:induction false} FinishTracks(p: Player, outcome: Outcome, pushed: seq<string>, started: seq<string>)
    requires Tracks(p, pushed, started)
    requires p.isPlaying
    ensures var r := Finish(p, outcome);
            Tracks(r, pushed, started + (if r.isPlaying then [r.queue[0]] else []))
  {
    var r := Finish(p, outcome);
    var n := |started|;
    assert p.queue[1..] == pushed[n..];
    if r.isPlaying {
      assert pushed[..n + 1] == started + [pushed[n]];
      assert pushed[n..][1..] == pushed[n + 1..];
    } else {
      assert |pushed| == n;
      assert pushed[..n] == pushed;
      assert started + [] == started;
    }
  }

  lemma {:induction false} PushedCons(inputs: seq<Input>)
    requires inputs != []
    ensures Pushed(inputs) == Pushed([inputs[0]]) + Pushed(inputs[1..])
  {
    assert [inputs[0]][1..] == [];
  }

  /** Regrouping the pushed and started sequences does not change what `Tracks` says. */
  lemma {:induction false} TracksRegroup(q: Player, pushed: seq<string>, a: seq<string>, b: seq<string>,
                      started: seq<string>, f: seq<string>, r: seq<string>)
    requires Tracks(q, pushed + a + b, started + f + r)
    ensures Tracks(q, pushed + (a + b), started + (f + r))
  {
    assert pushed + a + b == pushed + (a + b);
    assert started + f + r == started + (f + r);
  }

  lemma {:induction false} RunTracks(p: Player, inputs: seq<Input>, pushed: seq<string>, started: seq<string>)
    requires Tracks(p, pushed, started)
    requires Live(p, inputs)
    ensures Tracks(Run(p, inputs).0, pushed + Pushed(inputs), started + Run(p, inputs).1)
    decreases |inputs|
  {
    if inputs == [] {
      assert pushed + [] == pushed && started + [] == started;
    } else {
      var first := Step(p, inputs[0]);
      var rest := Run(first.0, inputs[1..]);
      StepTracks(p, inputs[0], pushed, started);
      PushedCons(inputs);
      RunTracks(first.0, inputs[1..], pushed + Pushed([inputs[0]]), started + first.1);
      TracksRegroup(rest.0, pushed, Pushed([inputs[0]]), Pushed(inputs[1..]), started, first.1, rest.1);
    }
  }

  /**
   * The queue plays in FIFO order: whatever mix of pushes and finish events arrives from idle,
   * the elements started are exactly the pushed locators in push order, none skipped or
   * repeated; while playing, the queue holds the playing entry and all later pushes; and an
   * idle player has started every push.
   */
  lemma {:induction false} PlaysInPushOrder(inputs: seq<Input>)
    requires Live(Idle, inputs)
    ensures |Run(Idle, inputs).1| <= |Pushed(inputs)|
    ensures Run(Idle, inputs).0.isPlaying ==> |Run(Idle, inputs).1| >= 1
    ensures Run(Idle, inputs).1 == Pushed(inputs)[..|Run(Idle, inputs).1|]
    ensures !Run(Idle, inputs).0.isPlaying ==> Run(Idle, inputs).1 == Pushed(inputs)
    ensures Run(Idle, inputs).0.isPlaying ==>
      Run(Idle, inputs).0.queue == Pushed(inputs)[|Run(Idle, inputs).1| - 1..]
  {
    assert Tracks(Idle, [], []);
    RunTracks(Idle, inputs, [], []);
    TracksFromStart(Run(Idle, inputs).0, Pushed(inputs), Run(Idle, inputs).1);
  }

  lemma TracksFromStart(q: Player, pushed: seq<string>, started: seq<string>)
    requires Tracks(q, [] + pushed, [] + started)
    ensures Tracks(q, pushed, started)
  {
    assert [] + pushed == pushed && [] + started == started;
  }

  /** A playing queue is never empty, and an idle one always is. */
  predicate Settled(p: Player)
  {
    p.isPlaying <==> p.queue != []
  }

  /** One finish event per queued clip. */
  function Finishes(outcomes: seq<Outcome>): (inputs: seq<Input>)
    ensures |inputs| == |outcomes|
    ensures forall i :: 0 <= i < |inputs| ==> inputs[i] == Finished(outcomes[i])
  {
    if outcomes == [] then [] else [Finished(outcomes[0])] + Finishes(outcomes[1..])
  }

  /**
   * A finite queue always drains to idle: as many finish events as queued clips, each of
   * them ended or failed, start the remaining entries in order and leave the player idle.
   */
  lemma {:induction false} DrainEndsIdle(p: Player, outcomes: seq<Outcome>)
    requires Settled(p)
    requires |outcomes| == |p.queue|
    ensures Live(p, Finishes(outcomes))
    ensures !Run(p, Finishes(outcomes)).0.isPlaying
    ensures Run(p, Finishes(outcomes)).0.queue == []
    ensures Run(p, Finishes(outcomes)).1 == Shift(p.queue)
    decreases |outcomes|
  {
    if outcomes != [] {
      var inputs := Finishes(outcomes);
      var next := Finish(p, outcomes[0]);
      assert inputs[1..] == Finishes(outcomes[1..]);
      assert Step(p, inputs[0]).0 == next;
      DrainEndsIdle(next, outcomes[1..]);
      if next.isPlaying {
        assert Shift(p.queue) == [next.queue[0]] + Shift(next.queue);
      }
    }
  }
}

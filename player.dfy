/** The bot's one `MusicPlayer` and the commands that change it. The
    asynchronous `audio_player_task` is cut into its two steps: `StartNext`
    takes the head of the queue (main.py:41, 50-52) and `FinishCurrent` runs
    when the track-end event fires (main.py:47-49). */
module Player {
  import opened Wrappers
  import opened Text
  import opened Search
  import opened Listing

  /** How the `play` command ends. */
  datatype PlayOutcome =
    | Queued(song: Song)                // "Queued: <title>"
    | NotInVoice                        // "Connect to a voice channel first."
    | CouldNotRetrieve                  // "Could not retrieve song."
    | SearchRaised(error: LookupError)  // the exception escapes `yt_search`

  /** The flag value a `loop` argument asks for, compared after `lower()`;
      `None` for any other word. */
  function LoopMode(mode: string): (r: Option<bool>)
    ensures r == Some(true) ==> |mode| == 2
    ensures r == Some(false) ==> |mode| == 3
    ensures r.None? <==> Lower(mode) != "on" && Lower(mode) != "off"
  {
    var m := Lower(mode);
    if m == "on" then Some(true) else if m == "off" then Some(false) else None
  }

  predicate IsLetter(c: char, lower: char) {
    c == lower || c as int == lower as int - 32
  }

  /** "on" is accepted in any letter case, and nothing else turns looping on. */
  lemma LoopModeOn(mode: string)
    ensures LoopMode(mode) == Some(true) <==> |mode| == 2 && IsLetter(mode[0], 'o') && IsLetter(mode[1], 'n')
  {
  }

  /** "off" is accepted in any letter case, and nothing else turns looping off. */
  lemma LoopModeOff(mode: string)
    ensures LoopMode(mode) == Some(false) <==>
      |mode| == 3 && IsLetter(mode[0], 'o') && IsLetter(mode[1], 'f') && IsLetter(mode[2], 'f')
  {
  }

  class MusicPlayer {
    /** The songs waiting, head first. */
    var queue: seq<Song>
    /** The song taken last from the queue; never cleared once set. */
    var current: Option<Song>
    var loop: bool
    /** `voice_client is not None` */
    var connected: bool
    /** The player task is waiting for the end of `current` (main.py:47). */
    var playing: bool

    ghost predicate Valid()
      reads this
    {
      playing ==> current.Some?
    }

    constructor ()
      ensures Valid()
      ensures queue == [] && current == None && !loop && !connected && !playing
    {
      queue := [];
      current := None;
      loop := false;
      connected := false;
      playing := false;
    }

    /** Empties the queue one element at a time, as `get_nowait()` in a loop does. */
    method Drain()
      modifies this
      ensures queue == []
      ensures current == old(current) && loop == old(loop)
      ensures connected == old(connected) && playing == old(playing)
    {
      while queue != []
        invariant current == old(current) && loop == old(loop)
        invariant connected == old(connected) && playing == old(playing)
        decreases |queue|
      {
        queue := queue[1..];
      }
    }

    /** The `play` command. The author must be in a voice channel; a player
        that is not connected joins first (its only effect here is that the
        player becomes connected). A resolved song goes to the tail. */
    method Play(inVoice: bool, query: string, extract: string -> Option<Info>) returns (outcome: PlayOutcome)
      requires Valid()
      modifies this
      ensures Valid()
      ensures !inVoice ==> outcome == NotInVoice && connected == old(connected)
      ensures inVoice ==> connected
      ensures inVoice ==> match YtSearch(query, extract)
        case Found(s) => outcome == Queued(s)
        case NoResult => outcome == CouldNotRetrieve
        case Raised(e) => outcome == SearchRaised(e)
      ensures outcome.Queued? ==> queue == old(queue) + [outcome.song]
      ensures !outcome.Queued? ==> queue == old(queue)
      ensures current == old(current) && loop == old(loop) && playing == old(playing)
    {
      if !inVoice {
        return NotInVoice;
      }
      if !connected {
        connected := true;
      }
      match YtSearch(query, extract)
      case NoResult =>
        outcome := CouldNotRetrieve;
      case Raised(e) =>
        outcome := SearchRaised(e);
      case Found(s) =>
        queue := queue + [s];
        outcome := Queued(s);
    }

    /** The player task takes the next song (main.py:41). Without a voice
        client it plays nothing and throws the rest of the queue away
        (main.py:50-52). On an empty queue `queue.get()` waits: nothing happens. */
    method StartNext() returns (started: bool)
      requires Valid() && !playing
      modifies this
      ensures Valid()
      ensures started <==> old(queue) != []
      ensures started ==> current == Some(old(queue)[0])
      ensures started && connected ==> queue == old(queue)[1..] && playing
      ensures started && !connected ==> queue == [] && !playing
      ensures !started ==> queue == old(queue) && current == old(current) && !playing
      ensures loop == old(loop) && connected == old(connected)
    {
      if queue == [] {
        return false;
      }
      started := true;
      current := Some(queue[0]);
      queue := queue[1..];
      if connected {
        playing := true;
      } else {
        Drain();
      }
    }

    /** The track-end event has fired (main.py:47): with looping on, the
        finished song goes back to the tail, behind everything queued. */
    method FinishCurrent()
      requires Valid() && playing
      modifies this
      ensures Valid() && !playing
      ensures loop ==> queue == old(queue) + [old(current).value]
      ensures !loop ==> queue == old(queue)
      ensures current == old(current) && loop == old(loop) && connected == old(connected)
    {
      playing := false;
      if loop {
        queue := queue + [current.value];
      }
    }

    /** The `stop` command: disconnects and empties the queue; `current` and
        `loop` stay. Without a connection it changes nothing. */
    method Stop() returns (stopped: bool)
      requires Valid()
      modifies this
      ensures Valid()
      ensures stopped == old(connected)
      ensures stopped ==> !connected && queue == []
      ensures !stopped ==> connected == old(connected) && queue == old(queue)
      ensures current == old(current) && loop == old(loop) && playing == old(playing)
    {
      stopped := connected;
      if connected {
        connected := false;
        Drain();
      }
    }

    /** The `loop` command: "on" or "off" in any letter case sets the flag;
        any other word is refused and changes nothing. */
    method SetLoop(mode: string) returns (accepted: bool)
      requires Valid()
      modifies this
      ensures Valid()
      ensures accepted <==> LoopMode(mode).Some?
      ensures accepted ==> loop == LoopMode(mode).value
      ensures !accepted ==> loop == old(loop)
      ensures queue == old(queue) && current == old(current)
      ensures connected == old(connected) && playing == old(playing)
    {
      match LoopMode(mode)
      case Some(on) =>
        loop := on;
        accepted := true;
      case None =>
        accepted := false;
    }

    /** The `queue` command's message, built line by line; the player is not changed. */
    method QueueListing() returns (msg: string)
      ensures msg == Render(current, queue)
    {
      if current.Some? {
        msg := NOW_PLAYING + current.value.title + "\n";
      } else {
        msg := NOTHING_PLAYING;
      }
      assert msg == Header(current);
      if queue == [] {
        msg := msg + QUEUE_EMPTY;
      } else {
        msg := msg + UP_NEXT;
        ghost var heading := msg;
        var i := 0;
        while i < |queue|
          invariant 0 <= i <= |queue|
          invariant msg == heading + Entries(queue[..i], 1)
        {
          ghost var done := queue[..i];
          assert queue[..i + 1] == done + [queue[i]];
          EntriesSnoc(done, queue[i], 1);
          msg := msg + Entry(i + 1, queue[i]);
          i := i + 1;
        }
        assert queue[..|queue|] == queue;
      }
    }
  }

  /** Two songs queued on a connected player without looping: the first
      `StartNext` takes the first song, the second waits, and it plays once
      the first has ended. */
  method FifoScenario(p: MusicPlayer, a: Song, b: Song) returns (first: Option<Song>)
    requires p.Valid() && p.connected && !p.playing && !p.loop && p.queue == [a, b]
    modifies p
    ensures first == Some(a)
    ensures p.current == Some(b) && p.queue == [] && p.playing
  {
    var started := p.StartNext();
    first := p.current;
    p.FinishCurrent();
    started := p.StartNext();
  }

  /** On a connected player with looping on, the end of a track followed by
      the next start rotates the songs by one: the finished song moves behind
      everything queued and the head plays. With nothing else queued the same
      song plays again. (Without a voice client the rest is emptied instead.) */
  method LoopRotates(p: MusicPlayer)
    requires p.Valid() && p.connected && p.playing && p.loop
    modifies p
    ensures p.Valid() && p.playing && p.current.Some?
    ensures [p.current.value] + p.queue == old(p.queue) + [old(p.current).value]
    ensures multiset([p.current.value] + p.queue) == multiset([old(p.current).value] + old(p.queue))
  {
    p.FinishCurrent();
    var started := p.StartNext();
  }

  /** One possible order of `stop` and the track-end event while a looping
      song plays: `stop` completes first, the track-end event then re-queues
      the song, the player task takes it without a voice client and empties
      the queue, and the listing keeps naming it as playing. */
  method StopWhileLooping(p: MusicPlayer, a: Song)
    requires p.Valid() && p.connected && p.playing && p.loop && p.current == Some(a)
    modifies p
    ensures !p.connected && !p.playing && p.queue == [] && p.current == Some(a)
    ensures Render(p.current, p.queue) == NOW_PLAYING + a.title + "\n" + QUEUE_EMPTY
  {
    var stopped := p.Stop();
    p.FinishCurrent();
    assert p.queue == [a];
    var started := p.StartNext();
  }
}

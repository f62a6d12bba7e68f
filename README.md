# MusicBot playback core in Dafny

This project models the playback logic of the MusicBot chat bot (`main.py`).
The bot has a single `MusicPlayer`. The player holds:

- a FIFO queue of songs, where each `Song` has a stream `source` and a `title`;
- the `current` song;
- a `loop` flag;
- a voice client, modelled as the boolean `connected`.

The model covers the commands that change this state (`play`, `stop`, `loop`) and
the text of the `queue` command. It also covers the pure front end of `yt_search`:
how a query is normalised, which entry of the result is chosen, and the fallback
title. The asynchronous `audio_player_task` is split into two explicit steps:

- `StartNext` is the task taking the head of the queue (main.py:41). Without a voice
  client, it then drains the queue (main.py:50-52).
- `FinishCurrent` is the track-end event firing (main.py:47). With looping on, it
  re-appends the finished song (main.py:48-49).

Modules:

- `Wrappers`: `Option`, standing for Python's `None`.
- `Text`: `startswith`, ASCII `lower()`, decimal rendering of a number, and the
  scanners that read text back.
- `Search`: `Song`, the extractor's result `Info`, and `YtSearch`.
- `Listing`: the `queue` message as a function `Render`, together with the parser
  `Parse` that reads back the titles it lists.
- `Player`: the class `MusicPlayer` and its command methods, plus three client
  methods that chain steps together.

The decisions that shape the model:

- **The extractor is a parameter.** `yt_dlp`'s `extract_info` is the function
  parameter `extract: string -> Option<Info>`. `None` covers both an exception and
  a missing result, because `yt_search` turns both into `None`.
- **Two crashes are modelled as outcomes.** `info['entries'][0]` on an empty list
  raises IndexError, and `info['url']` on a result without that key raises
  KeyError. Nothing in `yt_search` catches either, so `play` ends with the
  exception. The model returns `SearchRaised`, and the queue is unchanged.
- **`playing` is an extra field.** It records that the player task is waiting for
  the track-end event (main.py:47). `FinishCurrent` is only possible in that phase,
  and `StartNext` only outside it.
- **`current` is never reset.** This is true after a track ends and after `stop`,
  as in the code. So the listing can name a song as playing when nothing plays.
  `StopWhileLooping` shows this for one possible order of events: `stop`
  completes, then the track-end event re-queues the looping song, the task takes
  it without a voice client, and the listing still says "Now playing".

Quirks of the code that the model keeps:

- The model has one player and one guild. The source shares that one player across all guilds (main.py:54).
- Looping re-appends the finished song at the tail (main.py:48-49).
- `loop on` and `loop off` set the flag to a fixed value (main.py:124-129).
- `stop` keeps `current` and `loop`, and leaves the player task running
  (main.py:133-143).
- When the queue runs out, the task waits in `queue.get()` and `current` keeps
  the last song (main.py:41).

## Model

| member | source | states |
|---|---|---|
| `Text.StartsWithIff` | main.py:58 | `startswith("http")` holds exactly when the query is "http" followed by some rest |
| `Text.Lower` | main.py:124 | `mode.lower()` keeps the length and folds each character on its own (A-Z to a-z, everything else kept) |
| `Text.NatToString` | main.py:111 | the number of a list line is written as a non-empty string of decimal digits with no leading zero |
| `Text.DecimalRoundTrip` | main.py:111 | reading the decimal text of a line number back gives that number |
| `Search.NormalizeQuery` | main.py:58-59 | a query starting with "http" passes through unchanged; any other becomes "ytsearch1:" followed by the query; the result always starts with "http" or "ytsearch1:" |
| `Search.NormalizeInjective` | main.py:58-59 | two different queries never reach the extractor as the same string |
| `Search.SelectEntry` | main.py:67-68 | a result with `entries` yields its first entry, and an empty list fails (IndexError); a result without `entries` stands for itself |
| `Search.YtSearch` | main.py:57-69 | no extraction result gives `None`; an empty entry list or a missing `url` gives the matching exception; otherwise the song has the chosen entry's `url` and its title, or "Unknown Title" when the title is absent |
| `Listing.Header` | main.py:101-104 | the first line ends in a line break; it starts with "No song is playing currently." exactly when nothing is current, and otherwise is "Now playing: " followed by the current title |
| `Listing.Entry` | main.py:111 | a list line ends in a line break and, for a title without line breaks, contains no other one |
| `Listing.Render` | main.py:100-111 | the message starts with the first line; it is that line followed by "Queue is empty." exactly when the queue is empty, and otherwise continues with "Up next:" (its full content is stated by `ParseRender` and `EmptyNoticeIff`) |
| `Listing.EntriesSnoc` | main.py:110-111 | `Entries`, the numbered lines of the list: appending a song appends exactly one line, numbered one past the songs before it (the content of those lines is stated by `ParseEntriesRender`) |
| `Listing.ParseEntriesRender` | main.py:108-111 | the numbered lines read back as the queued titles, in queue order, numbered consecutively from the first number |
| `Listing.ParseHeaderRender` | main.py:101-104 | the first line says "No song is playing currently." when nothing is current, and otherwise names the current title |
| `Listing.ParseRender` | main.py:101-111 | the whole `queue` message reads back as the current title, if any, and every queued title exactly once, in queue order, numbered 1 to n |
| `Listing.EmptyNoticeIff` | main.py:105-111 | the message ends in "Queue is empty." if and only if the queue is empty, whatever the titles are |
| `Player.LoopMode` | main.py:124-131 | the argument is refused exactly when its lowercase form is neither "on" nor "off"; an accepted "on" has two characters and an accepted "off" three (its exact case-insensitive meaning is stated by `LoopModeOn` and `LoopModeOff`) |
| `Player.LoopModeOn` | main.py:124-126 | the `loop` argument turns looping on exactly when it is "on" in some letter case |
| `Player.LoopModeOff` | main.py:127-129 | the `loop` argument turns looping off exactly when it is "off" in some letter case |
| `Player.MusicPlayer.constructor` | main.py:31-35 | the player starts with an empty queue, no current song, looping off and no voice client |
| `Player.MusicPlayer.Drain` | main.py:51-52 | draining with `get_nowait()` until empty leaves the queue empty and changes nothing else |
| `Player.MusicPlayer.Play` | main.py:86-97 | an author outside a voice channel changes nothing; otherwise the player is connected, and exactly one song is appended at the tail on success; `None` or a raised lookup leaves the queue unchanged |
| `Player.MusicPlayer.StartNext` | main.py:40-52 | the head of the queue becomes `current`; with a voice client the rest keeps its FIFO order and the task waits for track end; without one the rest of the queue is emptied; an empty queue changes nothing |
| `Player.MusicPlayer.FinishCurrent` | main.py:47-49 | at track end with looping on, the same song is appended behind every queued song; with looping off the queue is unchanged; `current` stays |
| `Player.MusicPlayer.Stop` | main.py:134-143 | a connected player loses its voice client and its queue, and keeps `loop` and `current`; an unconnected player is unchanged |
| `Player.MusicPlayer.SetLoop` | main.py:123-131 | "on" or "off" in any case sets the flag to true or false; any other word is refused and changes nothing |
| `Player.MusicPlayer.QueueListing` | main.py:100-112 | the message built line by line equals `Render(current, queue)`, and the player is not modified |
| `Player.FifoScenario` | main.py:41-49 | with songs A and B queued on a connected player with looping off, the first start takes A, and B plays once A has ended, leaving the queue empty |
| `Player.LoopRotates` | main.py:41-49 | on a connected player with looping on, a track end followed by the next start rotates current-plus-queue by one, keeping the same multiset of songs; a lone song replays (without a voice client the rest of the queue is emptied instead, main.py:50-52) |
| `Player.StopWhileLooping` | main.py:38-52 | in the order where `stop` completes before the track-end event of a looping song, the player ends with an empty queue and no voice client, but a stale `current` that the listing reports as playing |

## Left out

- Discord framework, command routing, token loading and the messages sent with `ctx.send` (main.py:1-11, 161): I/O. Each command's message is represented only by the method's result.
- The `yt_dlp` extraction call (main.py:60-64): it is the `extract` parameter, and the options it is given are not modelled.
- FFmpeg options and the transcoding subprocess (main.py:20-23, 44): an external process. Starting playback is represented only by `playing` becoming true.
- The `asyncio.Event`, `call_soon_threadsafe` and the endless task loop (main.py:36-47): concurrency. The model has explicit `StartNext`/`FinishCurrent` steps that a client can interleave with the commands.
- The model allows more interleavings than the source. Whenever the queue is non-empty at track end (always, with looping on), `queue.put` and the next `queue.get` (main.py:49, 41) complete without suspending. So no command can run between `FinishCurrent` and `StartNext`, but the model lets commands run there. The method contracts hold in every state, so the extra orders only add behaviours.
- Player.MusicPlayer.Stop: is one atomic step, but the source suspends at `await ctx.voice_client.disconnect()` (main.py:136) before it clears the voice client and drains the queue (main.py:137-140). During that wait the player task can re-queue and take a song while the voice client is still set, and a `play` can add a song that the drain then removes. The model does not capture these orders.
- Player.MusicPlayer.Play: is one atomic step, although the source can suspend inside it. On an unconnected player, `play` awaits `join` (main.py:91). `join` suspends at `channel.connect()` (main.py:76) before it sets the voice client (main.py:77), and again at `ctx.send` (main.py:81). Both waits come before `yt_search` and `queue.put` (main.py:92-96). During them, another `play` can queue its song first or fail in its own `join`, a `stop` can run, a `queue` command can list the unchanged queue, and the track-end event can re-queue a looping song. So `queue == old(queue) + [song]` describes only the order in which nothing runs during those waits. The model does not capture the other orders.
- The model assumes that the track-end callback reaches the player task, so that every track end is a `FinishCurrent` step. The callback (main.py:45) goes through `bot.loop`, which is read once at import time (main.py:55). Whether that object is already the running event loop then depends on the version of the Discord library. The library is not part of this model.
- `join` (main.py:71-83): connecting, `move_to` and task creation are network handling. Only its state effect inside `play` is modelled: the player becomes connected. Each rejoin starts another player task in the source, and these duplicate tasks are not modelled; the model has one task.
- `ctx.voice_client` and `player.voice_client` are treated as one flag. For a single guild they agree between commands, since `stop` clears both. They differ during `join`: `player.voice_client` is still `None` until `channel.connect()` returns (main.py:76-77), while the connection is being made. The atomic `Play` does not model that window.
- `pause`, `resume` and `skip` (main.py:114-120, 145-159): they only guard calls into the library's voice client and own no player state. A skip ends the track through the same event as a natural end, which is `FinishCurrent`.
- Text.Lower: folds only the ASCII letters A-Z, not the full Unicode `str.lower()`.
- Listing.ParseRender, Listing.ParseEntriesRender, Listing.ParseHeaderRender: require that no title contains a line break, because the listing cannot be read back otherwise. `EmptyNoticeIff` has no such requirement.
- Python's `info.get('title', ...)` returns a stored `None` title as it is. The model's `Info.title` only says whether the key is present.

/** The text of the `queue` command: a "now playing" line, then either a
    notice that the queue is empty or the queued titles numbered from 1.
    `Parse` reads such a text back; the lemmas show that the text carries the
    whole listing, in queue order. */
module Listing {
  import opened Wrappers
  import opened Text
  import opened Search

  const NOTHING_PLAYING := "No song is playing currently.\n"
  const NOW_PLAYING := "Now playing: "
  const QUEUE_EMPTY := "Queue is empty."
  const UP_NEXT := "Up next:\n"
  const NUMBER_SEPARATOR := ". "

  /** The first line of the message; it names the current song if there is one. */
  function Header(current: Option<Song>): (r: string)
    ensures |r| > 0 && r[|r| - 1] == '\n'
    ensures current.None? <==> StartsWith(r, NOTHING_PLAYING)
    ensures current.Some? ==> StartsWith(r, NOW_PLAYING) && r[|NOW_PLAYING|..|r| - 1] == current.value.title
  {
    match current
    case None => NOTHING_PLAYING
    case Some(s) =>
      var r := NOW_PLAYING + s.title + "\n";
      assert r[2] == 'w' != NOTHING_PLAYING[2];
      r
  }

  /** One line of the list: `f"{idx}. {s.title}\n"`. */
  function Entry(idx: nat, s: Song): (r: string)
    ensures |r| > 0 && r[|r| - 1] == '\n'
    ensures '\n' !in s.title ==> forall i :: 0 <= i < |r| - 1 ==> r[i] != '\n'
  {
    var r := NatToString(idx) + NUMBER_SEPARATOR + s.title + "\n";
    assert forall i :: 0 <= i < |NatToString(idx)| ==> r[i] == NatToString(idx)[i];
    r
  }

  /** The lines for `queue`, the first one numbered `first`. */
  function Entries(queue: seq<Song>, first: nat): string
    decreases |queue|
  {
    if queue == [] then "" else Entry(first, queue[0]) + Entries(queue[1..], first + 1)
  }

  /** The whole message of the `queue` command. */
  function Render(current: Option<Song>, queue: seq<Song>): (r: string)
    ensures StartsWith(r, Header(current))
    ensures queue == [] <==> r == Header(current) + QUEUE_EMPTY
    ensures queue != [] ==> StartsWith(r[|Header(current)|..], UP_NEXT)
  {
    var header := Header(current);
    if queue == [] then header + QUEUE_EMPTY
    else
      var r := header + (UP_NEXT + Entries(queue, 1));
      assert r[|header|] == 'U' != (header + QUEUE_EMPTY)[|header|];
      r
  }

  /** Appending a song appends one line, numbered after all the others. */
  lemma {:induction false} EntriesSnoc(queue: seq<Song>, s: Song, first: nat)
    ensures Entries(queue + [s], first) == Entries(queue, first) + Entry(first + |queue|, s)
    decreases |queue|
  {
    if queue == [] {
      assert queue + [s] == [s];
      assert Entries([s], first) == Entry(first, s) + Entries([], first + 1);
    } else {
      assert (queue + [s])[0] == queue[0];
      assert (queue + [s])[1..] == queue[1..] + [s];
      EntriesSnoc(queue[1..], s, first + 1);
    }
  }

  // ---- Reading a listing back ----

  /** What a reader of the message learns: the title playing, if any, and the
      numbered titles that follow. */
  datatype Parsed = Parsed(nowPlaying: Option<string>, upNext: seq<(nat, string)>)

  /** The numbered titles `queue` should produce, the first numbered `first`. */
  function Numbered(queue: seq<Song>, first: nat): (r: seq<(nat, string)>)
    ensures |r| == |queue|
    ensures forall i :: 0 <= i < |queue| ==> r[i] == (first + i, queue[i].title)
  {
    seq(|queue|, i requires 0 <= i < |queue| => (first + i, queue[i].title))
  }

  lemma NumberedCons(queue: seq<Song>, first: nat)
    requires queue != []
    ensures Numbered(queue, first) == [(first, queue[0].title)] + Numbered(queue[1..], first + 1)
  {
  }

  function TitleOf(current: Option<Song>): Option<string> {
    match current
    case None => None
    case Some(s) => Some(s.title)
  }

  predicate NoLineBreaks(queue: seq<Song>) {
    forall i :: 0 <= i < |queue| ==> '\n' !in queue[i].title
  }

  /** Reads one line `<number>. <title>\n` from the front of `s`; gives the
      number, the title and the text after the line break. */
  function ParseLine(s: string): (r: Option<(nat, string, string)>)
    ensures r.Some? ==> |r.value.2| < |s|
  {
    var digits := TakeDigits(s);
    var afterNumber := s[|digits|..];
    if digits == [] || !StartsWith(afterNumber, NUMBER_SEPARATOR) then None
    else
      var line := afterNumber[|NUMBER_SEPARATOR|..];
      var title := TakeLine(line);
      var afterTitle := line[|title|..];
      if afterTitle == [] then None
      else Some((DigitsValue(digits), title, afterTitle[1..]))
  }

  /** Reads lines of the form `<number>. <title>\n` up to the end of `s`. */
  function ParseEntries(s: string): Option<seq<(nat, string)>>
    decreases |s|
  {
    if s == [] then Some([])
    else
      match ParseLine(s)
      case None => None
      case Some((idx, title, tail)) =>
        match ParseEntries(tail)
        case None => None
        case Some(rest) => Some([(idx, title)] + rest)
  }

  /** Reads the "now playing" line; gives its title and the text after it. */
  function ParseHeader(msg: string): Option<(Option<string>, string)> {
    if StartsWith(msg, NOTHING_PLAYING) then Some((None, msg[|NOTHING_PLAYING|..]))
    else if StartsWith(msg, NOW_PLAYING) then
      var line := msg[|NOW_PLAYING|..];
      var title := TakeLine(line);
      var afterTitle := line[|title|..];
      if afterTitle == [] then None else Some((Some(title), afterTitle[1..]))
    else None
  }

  function Parse(msg: string): Option<Parsed> {
    match ParseHeader(msg)
    case None => None
    case Some((nowPlaying, body)) =>
      if body == QUEUE_EMPTY then Some(Parsed(nowPlaying, []))
      else if StartsWith(body, UP_NEXT) then
        match ParseEntries(body[|UP_NEXT|..])
        case None => None
        case Some(entries) => Some(Parsed(nowPlaying, entries))
      else None
  }

  /** A line written by `Entry` reads back as its number and title. */
  lemma ParseLineOf(idx: nat, title: string, tail: string)
    requires '\n' !in title
    ensures ParseLine(NatToString(idx) + NUMBER_SEPARATOR + title + "\n" + tail) == Some((idx, title, tail))
  {
    var number := NatToString(idx);
    var line := title + ("\n" + tail);
    var afterNumber := NUMBER_SEPARATOR + line;
    var s := NatToString(idx) + NUMBER_SEPARATOR + title + "\n" + tail;
    assert s == number + afterNumber;
    TakeDigitsOf(number, afterNumber);
    assert s[|number|..] == afterNumber;
    assert afterNumber[..|NUMBER_SEPARATOR|] == NUMBER_SEPARATOR;
    assert afterNumber[|NUMBER_SEPARATOR|..] == line;
    TakeLineOf(title, "\n" + tail);
    assert line[|title|..] == "\n" + tail;
    assert ("\n" + tail)[1..] == tail;
    DecimalRoundTrip(idx);
  }

  lemma {:induction false} ParseEntriesRender(queue: seq<Song>, first: nat)
    requires NoLineBreaks(queue)
    ensures ParseEntries(Entries(queue, first)) == Some(Numbered(queue, first))
    decreases |queue|
  {
    if queue != [] {
      var title := queue[0].title;
      var tail := Entries(queue[1..], first + 1);
      var e := Entries(queue, first);
      assert e == NatToString(first) + NUMBER_SEPARATOR + title + "\n" + tail;
      assert '\n' !in title;
      ParseLineOf(first, title, tail);
      ParseEntriesRender(queue[1..], first + 1);
      assert e != [];
      assert ParseLine(e) == Some((first, title, tail));
      assert ParseEntries(e) == Some([(first, title)] + Numbered(queue[1..], first + 1));
      NumberedCons(queue, first);
    }
  }

  lemma ParseHeaderRender(current: Option<Song>, body: string)
    requires current.Some? ==> '\n' !in current.value.title
    ensures ParseHeader(Header(current) + body) == Some((TitleOf(current), body))
  {
    var msg := Header(current) + body;
    match current
    case None =>
      assert msg[..|NOTHING_PLAYING|] == NOTHING_PLAYING;
      assert msg[|NOTHING_PLAYING|..] == body;
    case Some(s) =>
      assert msg[2] == 'w' && NOTHING_PLAYING[2] == ' ';
      assert msg[..|NOW_PLAYING|] == NOW_PLAYING;
      assert msg[|NOW_PLAYING|..] == s.title + ("\n" + body);
      TakeLineOf(s.title, "\n" + body);
      assert (s.title + ("\n" + body))[|s.title|..] == "\n" + body;
      assert ("\n" + body)[1..] == body;
  }

  /** The listing can be read back: what plays (if anything) and every queued
      title exactly once, in queue order, numbered 1 to n. */
  lemma ParseRender(current: Option<Song>, queue: seq<Song>)
    requires current.Some? ==> '\n' !in current.value.title
    requires NoLineBreaks(queue)
    ensures Parse(Render(current, queue)) == Some(Parsed(TitleOf(current), Numbered(queue, 1)))
  {
    var body := if queue == [] then QUEUE_EMPTY else UP_NEXT + Entries(queue, 1);
    ParseHeaderRender(current, body);
    if queue != [] {
      assert body[0] == 'U' && QUEUE_EMPTY[0] == 'Q';
      assert body[..|UP_NEXT|] == UP_NEXT;
      assert body[|UP_NEXT|..] == Entries(queue, 1);
      ParseEntriesRender(queue, 1);
    }
  }

  /** A non-empty list of lines ends with a line break. */
  lemma EntriesEndInLineBreak(queue: seq<Song>, first: nat)
    requires queue != []
    ensures var s := Entries(queue, first); |s| > 0 && s[|s| - 1] == '\n'
  {
  }

  /** The message ends in "Queue is empty." exactly when the queue is empty,
      whatever the titles are. */
  lemma {:induction false} EmptyNoticeIff(current: Option<Song>, queue: seq<Song>)
    ensures var msg := Render(current, queue);
      (|msg| >= |QUEUE_EMPTY| && msg[|msg| - |QUEUE_EMPTY|..] == QUEUE_EMPTY) <==> queue == []
  {
    var msg := Render(current, queue);
    if queue == [] {
      assert msg[|msg| - |QUEUE_EMPTY|..] == QUEUE_EMPTY;
    } else {
      EntriesEndInLineBreak(queue, 1);
      assert msg[|msg| - 1] == '\n';
      if |msg| >= |QUEUE_EMPTY| {
        assert msg[|msg| - |QUEUE_EMPTY|..][|QUEUE_EMPTY| - 1] == '\n';
      }
    }
  }
}

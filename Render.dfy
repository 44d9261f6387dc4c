/** The control surface's text: the duration field and the "Now Playing" card, the
    queue listing with its ten-entry cap, and the five reaction icons the card offers. */
module Render {
  import opened Wrappers
  import opened Text
  import opened Songs

  // ---------------------------------------------------------------------------
  // Duration `m:ss`

  /** `divmod(duration, 60)` shown as minutes, a colon and two-digit seconds. */
  function FormatDuration(seconds: nat): string
  {
    NatToString(seconds / 60) + ":" + PadZeros(NatToString(seconds % 60), 2)
  }

  /** Reads an `m:ss` field back: minute digits without a leading zero (except a
      lone "0"), a colon, and two digits of seconds below 60. Any other text is
      not a duration field. */
  function ParseDuration(s: string): Option<nat>
  {
    if && |s| >= 4 && s[|s| - 3] == ':' && AllDigits(s[..|s| - 3]) && AllDigits(s[|s| - 2..])
       && ParseNat(s[|s| - 2..]) < 60 && (s[0] == '0' ==> |s| == 4)
    then Some(ParseNat(s[..|s| - 3]) * 60 + ParseNat(s[|s| - 2..]))
    else None
  }

  lemma {:induction false} ParseNatLeadingZero(t: string)
    requires AllDigits(t)
    ensures AllDigits("0" + t) && ParseNat("0" + t) == ParseNat(t)
  {
    var z := "0" + t;
    assert AllDigits(z) by { assert forall i :: 0 < i < |z| ==> z[i] == t[i - 1]; }
    if t != [] {
      assert z[..|z| - 1] == "0" + t[..|t| - 1];
      ParseNatLeadingZero(t[..|t| - 1]);
    } else {
      assert z[..|z| - 1] == [];
    }
  }

  /** The seconds part always has exactly two digits and reads back as the remainder. */
  lemma SecondsField(k: nat)
    requires k < 60
    ensures var f := PadZeros(NatToString(k), 2);
      |f| == 2 && AllDigits(f) && ParseNat(f) == k
  {
    var t := NatToString(k);
    ParseNatToString(k);
    if k < 10 {
      assert PadZeros(t, 2) == "0" + t;
      ParseNatLeadingZero(t);
    } else {
      assert |t| == 2;
    }
  }

  /** An `m:ss` string made of digit strings reads back as minutes * 60 + seconds. */
  lemma ParseDurationParts(minutes: string, secs: string, m: nat, sec: nat)
    requires |minutes| >= 1 && AllDigits(minutes) && ParseNat(minutes) == m
    requires minutes[0] == '0' ==> |minutes| == 1
    requires |secs| == 2 && AllDigits(secs) && ParseNat(secs) == sec && sec < 60
    ensures ParseDuration(minutes + ":" + secs) == Some(m * 60 + sec)
  {
    var s := minutes + ":" + secs;
    assert s[..|s| - 3] == minutes;
    assert s[|s| - 2..] == secs;
  }

  /** The duration field loses nothing: reading it back gives the duration. */
  lemma DurationRoundTrip(seconds: nat)
    ensures ParseDuration(FormatDuration(seconds)) == Some(seconds)
  {
    var q, r := seconds / 60, seconds % 60;
    var minutes := NatToString(q);
    var secs := PadZeros(NatToString(r), 2);
    assert FormatDuration(seconds) == minutes + ":" + secs;
    assert q * 60 + r == seconds;
    assert |secs| == 2 && AllDigits(secs) && ParseNat(secs) == r by { SecondsField(r); }
    assert ParseNat(minutes) == q by { ParseNatToString(q); }
    ParseDurationParts(minutes, secs, q, r);
  }

  /** Two texts the field never shows: seconds of 60 or more, and zero-padded
      minutes. */
  lemma NonCanonicalDurationsRejected()
    ensures ParseDuration("0:75") == None
    ensures ParseDuration("01:15") == None
  {
    var late, padded := "0:75", "01:15";
    assert late[|late| - 2..] == "75" && padded[0] == '0';
    assert ParseNat("75") == 75 by { assert "75"[..1] == "7"; }
  }

  /** Two digits reading as a number below 60 are what `02d` prints for it. */
  lemma SecondsFieldUnique(secs: string)
    requires |secs| == 2 && AllDigits(secs)
    ensures PadZeros(NatToString(ParseNat(secs)), 2) == secs
  {
    if secs[0] == '0' {
      var first := secs[..1];
      assert first[..0] == [] && first[0] == '0';
      assert ParseNat(first) == 0;
      assert ParseNat(secs) == DigitValue(secs[1]);
      assert NatToString(ParseNat(secs)) == [secs[1]];
    } else {
      assert Canonical(secs);
      NatToStringParseNat(secs);
    }
  }

  /** A duration field that reads back at all is exactly what `FormatDuration`
      prints for the value it reads as. */
  lemma OnlyCanonical(s: string, d: nat)
    requires ParseDuration(s) == Some(d)
    ensures s == FormatDuration(d)
  {
    var mins, secs := s[..|s| - 3], s[|s| - 2..];
    var m, sc := ParseNat(mins), ParseNat(secs);
    assert d == m * 60 + sc && sc < 60;
    assert d / 60 == m && d % 60 == sc;
    assert s == mins + ":" + secs;
    assert NatToString(m) == mins by {
      assert Canonical(mins);
      NatToStringParseNat(mins);
    }
    assert PadZeros(NatToString(sc), 2) == secs by { SecondsFieldUnique(secs); }
    assert FormatDuration(d) == NatToString(m) + ":" + PadZeros(NatToString(sc), 2);
  }

  lemma MinutesAndSecondsExample()
    ensures NatToString(3) + ":" + PadZeros(NatToString(20), 2) == "3:20"
  {
    var minutes, secs := NatToString(3), NatToString(20);
    assert minutes == "3" by { }
    assert secs == "20" by { }
    assert PadZeros(secs, 2) == secs;
  }

  lemma DurationExample()
    ensures FormatDuration(200) == "3:20"
  {
    assert 200 / 60 == 3 && 200 % 60 == 20;
    MinutesAndSecondsExample();
  }

  // ---------------------------------------------------------------------------
  // The "Now Playing" card

  const PauseEmoji: string := "\U{23F8}\U{FE0F}"
  const ResumeEmoji: string := "\U{25B6}\U{FE0F}"
  const SkipEmoji: string := "\U{23ED}\U{FE0F}"
  const StopEmoji: string := "\U{23F9}\U{FE0F}"
  const QueueEmoji: string := "\U{1F4DC}"

  /** The icons added under every card, in this order. */
  const ControlEmojis: seq<string> := [PauseEmoji, ResumeEmoji, SkipEmoji, StopEmoji, QueueEmoji]

  datatype Control = PauseControl | ResumeControl | SkipControl | StopControl | QueueControl | OtherEmoji

  /** Which control a reaction's emoji text selects. */
  function Classify(emoji: string): (c: Control)
    ensures c.OtherEmoji? <==> emoji !in ControlEmojis
    ensures c.PauseControl? <==> emoji == ControlEmojis[0]
    ensures c.ResumeControl? <==> emoji == ControlEmojis[1]
    ensures c.SkipControl? <==> emoji == ControlEmojis[2]
    ensures c.StopControl? <==> emoji == ControlEmojis[3]
    ensures c.QueueControl? <==> emoji == ControlEmojis[4]
  {
    if emoji == PauseEmoji then PauseControl
    else if emoji == ResumeEmoji then ResumeControl
    else if emoji == SkipEmoji then SkipControl
    else if emoji == StopEmoji then StopControl
    else if emoji == QueueEmoji then QueueControl
    else OtherEmoji
  }

  datatype Card = Card(
    heading: string,
    description: string,
    thumbnail: Option<string>,
    duration: Option<string>,
    footer: string)

  const NowPlayingHeading: string := "\U{1F3B5} Now Playing"
  const ControlsFooter: string :=
    PauseEmoji + " Pause | " + ResumeEmoji + " Resume | " + SkipEmoji + " Skip | " +
    StopEmoji + " Stop | " + QueueEmoji + " Queue"

  function Bold(text: string): string {
    "**" + text + "**"
  }

  /** The card sent when a song starts. An empty thumbnail and a zero duration are
      falsy in the source, so neither is shown. */
  function NowPlayingCard(song: Song): (card: Card)
    ensures card.heading == NowPlayingHeading && card.footer == ControlsFooter
    ensures card.description == Bold(song.title)
    ensures card.duration.Some? <==> song.duration != 0
    ensures card.duration.Some? ==> ParseDuration(card.duration.value) == Some(song.duration)
    ensures card.thumbnail.Some? <==> song.thumbnail.Some? && song.thumbnail.value != ""
    ensures card.thumbnail.Some? ==> card.thumbnail == song.thumbnail
  {
    DurationRoundTrip(song.duration);
    Card(
      NowPlayingHeading,
      Bold(song.title),
      if song.thumbnail.Some? && song.thumbnail.value != "" then song.thumbnail else None,
      if song.duration != 0 then Some(FormatDuration(song.duration)) else None,
      ControlsFooter)
  }

  // ---------------------------------------------------------------------------
  // The queue listing

  const ListingCap: nat := 10
  const MoreHead: string := "... and "
  const MoreTail: string := " more"

  function EntryLine(index: nat, title: string): string {
    NatToString(index + 1) + ". " + title
  }

  function MoreLine(hidden: nat): string {
    MoreHead + NatToString(hidden) + MoreTail
  }

  /** The "Up Next" lines: the first ten titles numbered from 1, then one line
      counting the rest when there are more than ten. */
  function UpNextLines(titles: seq<string>): (lines: seq<string>)
    ensures |lines| == if |titles| > ListingCap then ListingCap + 1 else |titles|
    ensures forall i :: 0 <= i < |titles| && i < ListingCap ==> lines[i] == EntryLine(i, titles[i])
    ensures |titles| > ListingCap ==> lines[ListingCap] == MoreLine(|titles| - ListingCap)
  {
    var shown := if |titles| > ListingCap then ListingCap else |titles|;
    seq(shown, i requires 0 <= i < shown => EntryLine(i, titles[i])) +
    (if |titles| > ListingCap then [MoreLine(|titles| - ListingCap)] else [])
  }

  function UpNext(titles: seq<string>): string {
    Join(UpNextLines(titles), "\n")
  }

  predicate IsMoreLine(line: string) {
    |line| >= |MoreHead| + |MoreTail| && StartsWith(line, MoreHead)
  }

  /** How many songs a reader of the listing can tell are queued: one per numbered
      line, plus the count on a trailing "... and N more" line. */
  function ListedCount(lines: seq<string>): nat
  {
    if lines == [] then 0
    else
      var last := lines[|lines| - 1];
      if IsMoreLine(last) && AllDigits(last[|MoreHead|..|last| - |MoreTail|])
      then |lines| - 1 + ParseNat(last[|MoreHead|..|last| - |MoreTail|])
      else |lines|
  }

  /** The capped listing still accounts for every queued song. */
  lemma ListingAccountsForQueue(titles: seq<string>)
    ensures ListedCount(UpNextLines(titles)) == |titles|
  {
    var lines := UpNextLines(titles);
    if |titles| > ListingCap {
      var last := MoreLine(|titles| - ListingCap);
      assert last[|MoreHead|..|last| - |MoreTail|] == NatToString(|titles| - ListingCap);
      ParseNatToString(|titles| - ListingCap);
    } else if titles != [] {
      var last := lines[|lines| - 1];
      assert last[0] == NatToString(|titles|)[0];
      assert IsDigit(last[0]);
      assert !IsMoreLine(last);
    }
  }

  lemma ListingExample(titles: seq<string>)
    requires |titles| == 12
    ensures |UpNextLines(titles)| == 11
    ensures UpNextLines(titles)[10] == "... and 2 more"
  {
    assert NatToString(2) == "2";
  }

  // ---------------------------------------------------------------------------
  // The queue view shown by the `queue` command and the queue icon

  datatype QueueView =
    | EmptyQueue
    | QueueCard(nowPlaying: Option<string>, upNext: Option<string>, footer: Option<string>)

  function Titles(songs: seq<Song>): (titles: seq<string>)
    ensures |titles| == |songs|
    ensures forall i :: 0 <= i < |songs| ==> titles[i] == songs[i].title
  {
    seq(|songs|, i requires 0 <= i < |songs| => songs[i].title)
  }

  /** The "Total in queue" footer of the `queue` command. */
  function TotalFooter(total: nat): string {
    "Total in queue: " + NatToString(total) + " song(s)"
  }

  /** "Queue is empty" exactly when nothing is queued and nothing is current;
      otherwise the current title and the capped listing, each only when present.
      The `queue` command adds the total as a footer (`withTotal`); the queue icon
      sends the same card without one. */
  function ShowQueue(current: Option<Song>, queue: seq<Song>, withTotal: bool): (v: QueueView)
    ensures v.EmptyQueue? <==> queue == [] && current.None?
    ensures v.QueueCard? ==> (v.nowPlaying.Some? <==> current.Some?)
    ensures v.QueueCard? && current.Some? ==> v.nowPlaying == Some(Bold(current.value.title))
    ensures v.QueueCard? ==> (v.upNext.Some? <==> queue != [])
    ensures v.QueueCard? && queue != [] ==> v.upNext == Some(UpNext(Titles(queue)))
    ensures v.QueueCard? ==> v.footer == (if withTotal then Some(TotalFooter(|queue|)) else None)
  {
    if queue == [] && current.None? then EmptyQueue
    else QueueCard(
      if current.Some? then Some(Bold(current.value.title)) else None,
      if queue != [] then Some(UpNext(Titles(queue))) else None,
      if withTotal then Some(TotalFooter(|queue|)) else None)
  }
}

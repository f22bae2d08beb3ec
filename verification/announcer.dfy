/** The display page of `public/scripts.js`: the list of audio segments
    announcing a ticket, their playback one after another, and the polling
    tick that decides when to announce, guarded against overlapping runs. */
module Announcer {
  import opened Common
  import opened Ticketing

  /** ASCII case mapping; display codes only ever carry 'N' or 'P'. */
  function ToLower(c: char): char {
    if 'A' <= c <= 'Z' then (c as int + 32) as char else c
  }

  function ToUpper(c: char): char {
    if 'a' <= c <= 'z' then (c as int - 32) as char else c
  }

  function UpperCase(s: string): (u: string)
    ensures |u| == |s|
    ensures forall i :: 0 <= i < |s| ==> u[i] == ToUpper(s[i])
  {
    seq(|s|, i requires 0 <= i < |s| => ToUpper(s[i]))
  }

  const CallingCue: string := "/chamando.mp3"
  const NormalCue: string := "normal.mp3"
  const PreferencialCue: string := "preferencial.mp3"

  /** `code.slice(0, 1)`: the first character, or nothing for an empty code. */
  function LetterOf(code: string): (l: string)
    ensures |l| == if |code| == 0 then 0 else 1
    ensures |code| > 0 ==> l[0] == code[0]
  {
    if |code| == 0 then "" else [code[0]]
  }

  /** `code.slice(1)`: everything after the letter. */
  function NumberOf(code: string): (n: string)
    ensures |n| == if |code| == 0 then 0 else |code| - 1
  {
    if |code| == 0 then "" else code[1..]
  }

  /** The category cue: the Normal one exactly when the code starts with
      'N', the Preferencial one for anything else. */
  function CategoryCue(code: string): (cue: string)
    ensures cue == NormalCue <==> |code| > 0 && code[0] == 'N'
    ensures cue != NormalCue ==> cue == PreferencialCue
  {
    if LetterOf(code) == "N" then NormalCue else PreferencialCue
  }

  /** The file played for one character: `/<c>.mp3`. */
  function Cue(c: char): string {
    "/" + [c] + ".mp3"
  }

  function DigitCues(digits: string): (cues: seq<string>)
    ensures |cues| == |digits|
    ensures forall i :: 0 <= i < |digits| ==> cues[i] == Cue(digits[i])
  {
    seq(|digits|, i requires 0 <= i < |digits| => Cue(digits[i]))
  }

  /** `fazerChamadaVoz`: the segments announcing `code`, in playing order:
      the calling cue, the category cue, the lower-cased letter, then one
      cue per character after the letter, left to right. */
  function Announcement(code: string): (segs: seq<string>)
    ensures |code| > 0 ==> |segs| == 3 + |code| - 1
    ensures |code| == 0 ==> |segs| == 3
    ensures segs[0] == CallingCue
    ensures segs[1] == "/" + CategoryCue(code)
    ensures |code| > 0 ==> segs[2] == Cue(ToLower(code[0]))
    ensures |code| == 0 ==> segs[2] == "/.mp3"
    ensures forall i :: 1 <= i < |code| ==> segs[2 + i] == Cue(code[i])
  {
    // an empty code has an empty letter, so its letter cue is "/.mp3"
    var letterCue := if |code| == 0 then "/.mp3" else Cue(ToLower(code[0]));
    var digits := DigitCues(NumberOf(code));
    var segs := [CallingCue, "/" + CategoryCue(code), letterCue] + digits;
    assert forall i :: 1 <= i < |code| ==> segs[2 + i] == Cue(code[i]) by {
      forall i | 1 <= i < |code| ensures segs[2 + i] == Cue(code[i]) {
        assert segs[2 + i] == digits[i - 1];
      }
    }
    segs
  }

  /** The character a one-character cue `/<c>.mp3` names. */
  function CueChar(cue: string): Option<char> {
    if |cue| == 6 && cue[0] == '/' && cue[2..] == ".mp3" then Some(cue[1]) else None
  }

  function DecodeCues(cues: seq<string>): (r: Option<string>)
    ensures r.Some? ==> |r.value| == |cues|
    decreases |cues|
  {
    if |cues| == 0 then Some("")
    else match (CueChar(cues[0]), DecodeCues(cues[1..]))
      case (Some(c), Some(rest)) => Some([c] + rest)
      case _ => None
  }

  /** Recovers the announced code from a segment list (the letter is read
      upper-case). */
  function DecodeAnnouncement(segs: seq<string>): Option<string> {
    if |segs| < 3 || segs[0] != CallingCue then None
    else match (CueChar(segs[2]), DecodeCues(segs[3..]))
      case (Some(l), Some(digits)) => Some([ToUpper(l)] + digits)
      case _ => None
  }

  /** How one segment's playback ends: it plays to the end, fails to load,
      or its `play()` is rejected. */
  datatype Fate = Ended | LoadError | PlayRejected

  /** One segment handed to the audio engine and how it ended. */
  datatype Attempt = Attempt(file: string, fate: Fate)

  /** The reference reading of `playSequence`: with audio enabled, every
      segment is attempted once, in order, whatever became of the earlier
      ones; with audio disabled nothing is attempted. */
  function Played(audioOn: bool, files: seq<string>, fates: nat -> Fate): (log: seq<Attempt>)
    ensures !audioOn ==> log == []
    ensures audioOn ==> |log| == |files|
    ensures audioOn ==> forall i :: 0 <= i < |files| ==> log[i] == Attempt(files[i], fates(i))
  {
    if audioOn then seq(|files|, i requires 0 <= i < |files| => Attempt(files[i], fates(i))) else []
  }

  /** `playSequence` as a loop over the pending list: take the head, play
      it, and continue with the rest on every ending, failures included.
      `fates(i)` is how the i-th segment's playback ends. */
  method PlaySequence(audioOn: bool, files: seq<string>, fates: nat -> Fate) returns (log: seq<Attempt>)
    ensures log == Played(audioOn, files, fates)
  {
    var pending := files;
    log := [];
    while audioOn && |pending| > 0
      invariant !audioOn ==> log == []
      invariant |log| + |pending| == |files|
      invariant pending == files[|log|..]
      invariant forall i :: 0 <= i < |log| ==> log[i] == Attempt(files[i], fates(i))
      decreases |pending|
    {
      var next := pending[0];
      pending := pending[1..];
      log := log + [Attempt(next, fates(|log|))];
    }
  }

  /** The display's own state: the audio gate, the timestamp of the last
      announcement played (`lastPlayedTimestamp`) and the `isPolling` flag. */
  datatype Display = Display(audioOn: bool, lastPlayed: nat, polling: bool)

  /** How many past calls the panel lists. */
  const RecentShown: nat := 3

  /** What the panel shows after a tick. */
  datatype Panel = Panel(queued: nat, total: nat, code: string, station: string, recent: seq<Call>)

  /** The panel drawn from a snapshot: the current ticket (or "--"), the
      station in capitals, and only the three most recent past calls. */
  function Render(snap: Snapshot): (p: Panel)
    ensures p.queued == snap.totalQueued && p.total == snap.totalIssued
    ensures |p.recent| == Min(RecentShown, |snap.history|)
    ensures p.recent == snap.history[..|p.recent|]
    ensures snap.current.None? ==> p.code == "--" && p.station == "--"
    ensures snap.current.Some? ==> p.code == snap.current.value.code
    ensures snap.current.Some? ==> p.station == UpperCase(snap.current.value.station)
  {
    var recent := snap.history[..Min(RecentShown, |snap.history|)];
    match snap.current
    case None => Panel(snap.totalQueued, snap.totalIssued, "--", "--", recent)
    case Some(c) => Panel(snap.totalQueued, snap.totalIssued, c.code, UpperCase(c.station), recent)
  }

  datatype TickOutcome =
    | Skipped                                  // another tick was still running
    | Failed                                   // fetching or announcing threw
    | Shown(played: seq<Attempt>, panel: Panel)

  /** The start of `atualizarPainelExibicao`: a tick that finds another one
      in flight returns at once; otherwise it takes the single slot. */
  function BeginTick(d: Display): (r: (Display, bool))
    ensures d.polling ==> r == (d, false)
    ensures !d.polling ==> r == (d.(polling := true), true)
  {
    if d.polling then (d, false) else (d.(polling := true), true)
  }

  /** The rest of a tick once the snapshot has arrived (None when fetching
      or decoding it threw). The current call is announced only when the
      snapshot's timestamp is strictly newer than the last one played, and
      the new timestamp is recorded only after the whole announcement; with
      audio off nothing plays but the timestamp still advances. On every
      path the slot is released. */
  function FinishTick(d: Display, fetched: Option<Snapshot>, fates: nat -> Fate): (r: (Display, TickOutcome))
    ensures !r.0.polling && r.0.audioOn == d.audioOn
    ensures r.0.lastPlayed >= d.lastPlayed
    ensures r.0.lastPlayed != d.lastPlayed ==>
      fetched.Some? && fetched.value.lastAudio > d.lastPlayed && r.0.lastPlayed == fetched.value.lastAudio
    ensures fetched.None? ==> r == (d.(polling := false), Failed)
    ensures r.1.Failed? ==> r.0.lastPlayed == d.lastPlayed
    ensures fetched.Some? && fetched.value.lastAudio <= d.lastPlayed ==>
      r == (d.(polling := false), Shown([], Render(fetched.value)))
    ensures fetched.Some? && fetched.value.lastAudio > d.lastPlayed && fetched.value.current.None? ==>
      r.1.Failed?
    ensures fetched.Some? && fetched.value.lastAudio > d.lastPlayed && fetched.value.current.Some? ==>
      && r.0.lastPlayed == fetched.value.lastAudio
      && r.1 == Shown(Played(d.audioOn, Announcement(fetched.value.current.value.code), fates),
                      Render(fetched.value))
  {
    var idle := d.(polling := false);
    match fetched
    case None => (idle, Failed)
    case Some(snap) =>
      if snap.lastAudio > d.lastPlayed then
        match snap.current
        // reading the code of a missing current call throws
        case None => (idle, Failed)
        case Some(c) =>
          (idle.(lastPlayed := snap.lastAudio),
           Shown(Played(d.audioOn, Announcement(c.code), fates), Render(snap)))
      else
        (idle, Shown([], Render(snap)))
  }

  /** A whole tick when nothing else runs in between. */
  function Tick(d: Display, fetched: Option<Snapshot>, fates: nat -> Fate): (r: (Display, TickOutcome))
    ensures d.polling ==> r == (d, Skipped)
    ensures !d.polling ==> r == FinishTick(d, fetched, fates)
  {
    var (d', started) := BeginTick(d);
    if started then FinishTick(d', fetched, fates) else (d, Skipped)
  }

  /** The events the display sees: a timer tick starting, or the tick in
      flight resuming with its snapshot and the fate of each segment. */
  datatype Event = Begin | Finish(fetched: Option<Snapshot>, fates: nat -> Fate)

  /** One event applied to the display. A start is `BeginTick`; a resume
      finishes the tick in flight, and with no tick in flight there is
      nothing to resume, so it changes nothing. */
  function Apply(d: Display, e: Event): (r: Display)
    ensures e.Begin? ==> r == BeginTick(d).0
    ensures e.Finish? && d.polling ==> r == FinishTick(d, e.fetched, e.fates).0
    ensures e.Finish? && !d.polling ==> r == d
  {
    match e
    case Begin => BeginTick(d).0
    case Finish(fetched, fates) => if d.polling then FinishTick(d, fetched, fates).0 else d
  }

  /** The display after a sequence of events, applied in order. */
  function Replay(d: Display, events: seq<Event>): Display
    decreases |events|
  {
    if |events| == 0 then d else Replay(Apply(d, events[0]), events[1..])
  }
}

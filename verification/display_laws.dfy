/** Properties of the display model: the announcement can be read back as
    the code it announces, and the last-played timestamp never moves back
    whatever the interleaving of ticks. */
module DisplayLaws {
  import opened Common
  import opened Decimal
  import opened Ticketing
  import opened Announcer

  lemma CueCharOfCue(c: char)
    ensures CueChar(Cue(c)) == Some(c)
  {
  }

  lemma {:induction false} DecodeCuesOf(cues: seq<string>, s: string)
    requires |cues| == |s|
    requires forall j :: 0 <= j < |s| ==> cues[j] == Cue(s[j])
    ensures DecodeCues(cues) == Some(s)
    decreases |s|
  {
    if |s| == 0 {
    } else {
      CueCharOfCue(s[0]);
      DecodeCuesOf(cues[1..], s[1..]);
      assert [s[0]] + s[1..] == s;
    }
  }

  /** The segment list determines the code: for a code that starts with a
      capital ASCII letter, decoding its announcement gives the code back. */
  lemma AnnouncementRoundTrip(code: string)
    requires |code| > 0 && 'A' <= code[0] <= 'Z'
    ensures DecodeAnnouncement(Announcement(code)) == Some(code)
  {
    var segs := Announcement(code);
    CueCharOfCue(ToLower(code[0]));
    DecodeCuesOf(segs[3..], code[1..]);
    assert [code[0]] + code[1..] == code;
  }

  /** Every issued code is announced recoverably, with the category cue of
      its own category and one digit cue per digit of its number. */
  lemma IssuedCodeAnnouncement(cat: Category, n: nat)
    ensures DecodeAnnouncement(Announcement(DisplayCode(cat, n))) == Some(DisplayCode(cat, n))
    ensures Announcement(DisplayCode(cat, n))[1] ==
      if cat == Normal then "/" + NormalCue else "/" + PreferencialCue
    ensures |Announcement(DisplayCode(cat, n))| == 2 + Max(CodeWidth, |ToDecimal(n)|) + 1
  {
    AnnouncementRoundTrip(DisplayCode(cat, n));
  }

  /** Distinct codes make distinct announcements. */
  lemma AnnouncementInjective(c1: string, c2: string)
    requires |c1| > 0 && 'A' <= c1[0] <= 'Z'
    requires |c2| > 0 && 'A' <= c2[0] <= 'Z'
    requires Announcement(c1) == Announcement(c2)
    ensures c1 == c2
  {
    AnnouncementRoundTrip(c1);
    AnnouncementRoundTrip(c2);
  }

  /** Whatever order ticks start and resume in, `lastPlayedTimestamp` never
      decreases and the audio gate is never changed by a tick. */
  lemma {:induction false} LastPlayedNeverDecreases(d: Display, events: seq<Event>)
    ensures Replay(d, events).lastPlayed >= d.lastPlayed
    ensures Replay(d, events).audioOn == d.audioOn
    decreases |events|
  {
    if |events| > 0 {
      LastPlayedNeverDecreases(Apply(d, events[0]), events[1..]);
    }
  }

  /** A tick that starts while another is in flight changes nothing, and a
      completed tick always leaves the slot free. */
  lemma GuardIsSingleSlot(d: Display, fetched: Option<Snapshot>, fates: nat -> Fate)
    ensures Apply(d.(polling := true), Begin) == d.(polling := true)
    ensures !Apply(Apply(d.(polling := false), Begin), Finish(fetched, fates)).polling
  {
  }

  /** Events are applied one after another: replaying two sequences in a
      row is replaying their concatenation. */
  lemma {:induction false} ReplayAppend(d: Display, a: seq<Event>, b: seq<Event>)
    ensures Replay(d, a + b) == Replay(Replay(d, a), b)
    decreases |a|
  {
    if |a| > 0 {
      assert (a + b)[0] == a[0] && (a + b)[1..] == a[1..] + b;
      ReplayAppend(Apply(d, a[0]), a[1..], b);
    } else {
      assert a + b == b;
    }
  }
}

/** How the server's state and the display's polling fit together: a valid
    server snapshot never makes a tick throw; a call the display polls
    before the next call is announced once, while a call replaced before
    the display polls is never announced; and a recall announces the same
    ticket again. */
module EndToEnd {
  import opened Common
  import opened Ticketing
  import opened Announcer

  /** A snapshot of a valid server state never makes a tick fail: whenever
      its timestamp is newer than anything played, a current call exists. */
  lemma ValidSnapshotNeverFails(s: State, d: Display, fates: nat -> Fate)
    requires Valid(s)
    ensures !FinishTick(d, Some(Stats(s)), fates).1.Failed?
  {
  }

  /** After a successful call stamped later than anything the display has
      played, the next tick plays the announcement of the served ticket in
      full and records the stamp; polling the same state again plays
      nothing. */
  lemma CallAnnouncedOnce(s: State, station: Station, now: nat, d: Display,
                          fates: nat -> Fate, fates2: nat -> Fate)
    requires Valid(s)
    requires CallNext(s, station, now).1.Success?
    requires now > d.lastPlayed && !d.polling
    ensures
      var s' := CallNext(s, station, now).0;
      var code := CallNext(s, station, now).1.value.code;
      var (d1, out1) := Tick(d, Some(Stats(s')), fates);
      && out1 == Shown(Played(d.audioOn, Announcement(code), fates), Render(Stats(s')))
      && d1.lastPlayed == now
      && Tick(d1, Some(Stats(s')), fates2) == (d1, Shown([], Render(Stats(s'))))
  {
  }

  /** A successful recall stamped later than the last announcement makes
      the display announce the same current ticket again in full. */
  lemma RecallReannounces(s: State, station: Station, now: nat, d: Display, fates: nat -> Fate)
    requires Recall(s, station, now).1.Success?
    requires now > d.lastPlayed && !d.polling
    ensures
      var s' := Recall(s, station, now).0;
      var (d1, out1) := Tick(d, Some(Stats(s')), fates);
      && out1 == Shown(Played(d.audioOn, Announcement(s.current.value.code), fates), Render(Stats(s')))
      && d1.lastPlayed == now
  {
  }

  /** With audio disabled the display still catches up: nothing plays, but
      the timestamp advances so no backlog builds. */
  lemma SilentDisplayCatchesUp(s: State, d: Display, fates: nat -> Fate)
    requires Valid(s) && !d.audioOn && !d.polling
    requires s.lastAudio > d.lastPlayed
    ensures Tick(d, Some(Stats(s)), fates).1.Shown?
    ensures Tick(d, Some(Stats(s)), fates).1.played == []
    ensures Tick(d, Some(Stats(s)), fates).0.lastPlayed == s.lastAudio
  {
  }

  /** Announcements are driven by the timestamp alone, not by a queue of
      calls: when a second call follows the first before the display polls,
      the next tick announces only the second, records its stamp, and a
      repeated poll plays nothing, so the first call is never announced. */
  lemma ReplacedCallNotAnnounced(s: State, st1: Station, t1: nat, st2: Station, t2: nat,
                                 d: Display, fates: nat -> Fate, fates2: nat -> Fate)
    requires Valid(s)
    requires CallNext(s, st1, t1).1.Success?
    requires CallNext(CallNext(s, st1, t1).0, st2, t2).1.Success?
    requires t2 > d.lastPlayed && !d.polling
    ensures
      var s2 := CallNext(CallNext(s, st1, t1).0, st2, t2).0;
      var code2 := CallNext(CallNext(s, st1, t1).0, st2, t2).1.value.code;
      var (d1, out1) := Tick(d, Some(Stats(s2)), fates);
      && out1 == Shown(Played(d.audioOn, Announcement(code2), fates), Render(Stats(s2)))
      && d1.lastPlayed == t2
      && Tick(d1, Some(Stats(s2)), fates2) == (d1, Shown([], Render(Stats(s2))))
  {
    assert Step(s, CallNextTicket(st1, t1)).0 == CallNext(s, st1, t1).0;
    CallAnnouncedOnce(CallNext(s, st1, t1).0, st2, t2, d, fates, fates2);
  }

  /** Two queued Normal tickets and nothing called yet. */
  const TwoQueued: State := State(3, 1, ["N001", "N002"], [], 0, None, 2, [], 0)

  /** N001 is called at time 10 and N002 at time 20 before the display
      polls: the display announces N002 only, which is not N001's
      announcement, and N001 is never announced. */
  lemma MissedCallExample(station: Station, fates: nat -> Fate, fates2: nat -> Fate)
    ensures
      var (s1, r1) := CallNext(TwoQueued, station, 10);
      var (s2, r2) := CallNext(s1, station, 20);
      var d := Display(true, 0, false);
      var (d1, out1) := Tick(d, Some(Stats(s2)), fates);
      && r1 == Success(Call("N001", station)) && r2 == Success(Call("N002", station))
      && out1 == Shown(Played(true, Announcement("N002"), fates), Render(Stats(s2)))
      && Announcement("N002") != Announcement("N001")
      && Tick(d1, Some(Stats(s2)), fates2).1 == Shown([], Render(Stats(s2)))
  {
    var s1 := CallNext(TwoQueued, station, 10).0;
    assert TwoQueued.normalQueue[1..] == ["N002"];
    assert s1.normalQueue == ["N002"];
    ReplacedCallNotAnnounced(TwoQueued, station, 10, station, 20, Display(true, 0, false), fates, fates2);
    assert Announcement("N002")[5] == Cue('2') && Announcement("N001")[5] == Cue('1');
    assert Cue('2')[1] != Cue('1')[1];
  }
}

/** Fairness of the calling rule: the Normal queue is first in, first out
    over any run of requests, and between resets a Normal ticket waits at
    most three calls per ticket ahead of it, whatever else is requested in
    between; a reset can break that bound. */
module Fairness {
  import opened Common
  import opened Ticketing
  import opened Decimal
  import opened ServerLaws

  /** The next call serves the head of the Normal queue. */
  predicate ServesNormal(s: State) {
    |s.normalQueue| > 0 && !ServesPreferencial(s)
  }

  /** The number of call requests in a sequence. */
  function CallCount(reqs: seq<Request>): nat
    decreases |reqs|
  {
    if |reqs| == 0 then 0
    else (if reqs[0].CallNextTicket? then 1 else 0) + CallCount(reqs[1..])
  }

  /** The code a request appends to the Normal queue, if it issues one. */
  function NormalIssuedBy(s: State, req: Request): seq<string> {
    if req.IssueTicket? && ParseType(req.tipo) == Some(Normal) then [DisplayCode(Normal, s.nextNormal)] else []
  }

  /** The code a request serves from the Normal queue, if it serves one. */
  function NormalServedBy(s: State, req: Request): seq<string> {
    if req.CallNextTicket? && ServesNormal(s) then [s.normalQueue[0]] else []
  }

  /** The Normal codes a run of requests issues, in issuing order. */
  function NormalIssued(s: State, reqs: seq<Request>): seq<string>
    decreases |reqs|
  {
    if |reqs| == 0 then [] else NormalIssuedBy(s, reqs[0]) + NormalIssued(Step(s, reqs[0]).0, reqs[1..])
  }

  /** The Normal codes a run of requests serves, in serving order. */
  function NormalServed(s: State, reqs: seq<Request>): seq<string>
    decreases |reqs|
  {
    if |reqs| == 0 then [] else NormalServedBy(s, reqs[0]) + NormalServed(Step(s, reqs[0]).0, reqs[1..])
  }

  lemma NoResetTail(reqs: seq<Request>)
    requires |reqs| > 0 && NoReset(reqs)
    ensures !reqs[0].ResetTickets? && NoReset(reqs[1..])
  {
    forall i | 0 <= i < |reqs[1..]| ensures !reqs[1..][i].ResetTickets? {
      assert reqs[1..][i] == reqs[i + 1];
    }
  }

  /** One request keeps the Normal queue first in, first out: the queue
      followed by what the request issues is what it serves followed by
      the queue afterwards. */
  lemma StepNormalFifo(s: State, req: Request)
    ensures s.normalQueue + NormalIssuedBy(s, req) == NormalServedBy(s, req) + Step(s, req).0.normalQueue
  {
    var q := s.normalQueue;
    match req
    case IssueTicket(tipo) =>
      if ParseType(tipo) == Some(Preferencial) {
        assert Queue(Issue(s, tipo).0, Other(Preferencial)) == Queue(s, Normal);
      }
    case CallNextTicket(station, now) =>
      if ServesNormal(s) {
        assert CallNext(s, station, now).0.normalQueue == q[1..];
        assert q == [q[0]] + q[1..];
      } else if CallNext(s, station, now).1.Success? {
        assert ServesPreferencial(s);
      }
    case RecallTicket(station, now) =>
    case ResetTickets =>
    case GetStats =>
  }

  /** A Normal ticket a call serves is the one the call replies with. */
  lemma ServedIsReplied(s: State, req: Request)
    requires NormalServedBy(s, req) != []
    ensures Step(s, req).1 == CalledReply(Call(s.normalQueue[0], req.station))
  {
  }

  /** Two first-in first-out stages in a row make one. */
  lemma FifoCompose(q0: seq<string>, i1: seq<string>, ir: seq<string>, v1: seq<string>, vr: seq<string>,
                    q1: seq<string>, q2: seq<string>)
    requires q0 + i1 == v1 + q1 && q1 + ir == vr + q2
    ensures q0 + (i1 + ir) == (v1 + vr) + q2
  {
    calc {
      q0 + (i1 + ir);
      (q0 + i1) + ir;
      (v1 + q1) + ir;
      v1 + (q1 + ir);
      v1 + (vr + q2);
      (v1 + vr) + q2;
    }
  }

  /** Over any run of requests, resets included, the Normal queue is first
      in, first out: the tickets queued at the start followed by those the
      run issues are exactly those it serves, in serving order, followed by
      those still queued. */
  lemma {:induction false} NormalQueueFifo(s: State, reqs: seq<Request>)
    ensures s.normalQueue + NormalIssued(s, reqs) == NormalServed(s, reqs) + Run(s, reqs).normalQueue
    decreases |reqs|
  {
    if |reqs| > 0 {
      var s1 := Step(s, reqs[0]).0;
      StepNormalFifo(s, reqs[0]);
      NormalQueueFifo(s1, reqs[1..]);
      FifoCompose(s.normalQueue, NormalIssuedBy(s, reqs[0]), NormalIssued(s1, reqs[1..]),
                  NormalServedBy(s, reqs[0]), NormalServed(s1, reqs[1..]),
                  s1.normalQueue, Run(s1, reqs[1..]).normalQueue);
    }
  }

  /** One request other than a reset, made while m > 0 tickets wait in the
      Normal queue: a call lowers the pressure 3m - budget used by at least
      one, where m counts down when the call serves Normal; an issue, a
      recall or a poll never raises it nor shortens the Normal queue. */
  lemma StepLowersPressure(s: State, req: Request, m: nat)
    requires Valid(s) && !req.ResetTickets?
    requires 0 < m <= |s.normalQueue|
    ensures var k := |NormalServedBy(s, req)|; var s' := Step(s, req).0;
      && k <= 1 && m - k <= |s'.normalQueue|
      && 3 * (m - k) - s'.priorityStreak <= 3 * m - s.priorityStreak - (if req.CallNextTicket? then 1 else 0)
  {
    if req.IssueTicket? && ParseType(req.tipo).Some? {
      var cat := ParseType(req.tipo).value;
      assert |Step(s, req).0.normalQueue| >= |s.normalQueue| by {
        if cat == Preferencial {
          assert Queue(Step(s, req).0, Other(cat)) == Queue(s, Other(cat));
        }
      }
    }
  }

  /** Between resets, while any of the first m Normal tickets still waits,
      every call lowers the pressure 3(m - served) - budget used by at least
      one, whatever else is requested in between. */
  lemma {:induction false} RunLowersPressure(s: State, reqs: seq<Request>, m: nat)
    requires Valid(s) && NoReset(reqs) && m <= |s.normalQueue|
    ensures var k := |NormalServed(s, reqs)|;
      k >= m || 3 * (m - k) - Run(s, reqs).priorityStreak <= 3 * m - s.priorityStreak - CallCount(reqs)
    decreases |reqs|
  {
    if |reqs| > 0 && m > 0 {
      var s1 := Step(s, reqs[0]).0;
      var k1 := |NormalServedBy(s, reqs[0])|;
      NoResetTail(reqs);
      StepLowersPressure(s, reqs[0], m);
      RunLowersPressure(s1, reqs[1..], m - k1);
      assert |NormalServed(s, reqs)| == k1 + |NormalServed(s1, reqs[1..])|;
      assert CallCount(reqs) == (if reqs[0].CallNextTicket? then 1 else 0) + CallCount(reqs[1..]);
      assert Run(s, reqs) == Run(s1, reqs[1..]);
    }
  }

  /** Bounded waiting between resets: from a valid state, any run of
      requests without a reset that makes at least 3m calls serves at least
      m Normal tickets, the first m of them being the m that headed the
      Normal queue, in order. So a Normal ticket with k tickets ahead of it
      is called within 3(k + 1) calls, whatever is issued, recalled or
      polled in between. */
  lemma BoundedWaiting(s: State, reqs: seq<Request>, m: nat)
    requires Valid(s) && NoReset(reqs)
    requires m <= |s.normalQueue| && CallCount(reqs) >= 3 * m
    ensures |NormalServed(s, reqs)| >= m
    ensures NormalServed(s, reqs)[..m] == s.normalQueue[..m]
  {
    RunLowersPressure(s, reqs, m);
    RunPreservesValid(s, reqs);
    NormalQueueFifo(s, reqs);
    var q := s.normalQueue + NormalIssued(s, reqs);
    assert NormalServed(s, reqs)[..m] == q[..m];
    assert q[..m] == s.normalQueue[..m];
  }

  /** No starvation between resets: from a valid state where a Normal
      ticket waits, any run without a reset that makes three calls serves
      that ticket, whatever else is requested in between. */
  lemma NormalServedWithinThree(s: State, reqs: seq<Request>)
    requires Valid(s) && NoReset(reqs)
    requires |s.normalQueue| > 0 && CallCount(reqs) >= 3
    ensures |NormalServed(s, reqs)| > 0 && NormalServed(s, reqs)[0] == s.normalQueue[0]
  {
    BoundedWaiting(s, reqs, 1);
    var v := NormalServed(s, reqs);
    assert v[0] == v[..1][0] && s.normalQueue[0] == s.normalQueue[..1][0];
  }

  /** A run starting with request `r`: its first step, then the rest. */
  lemma RunCons(s: State, r: Request, rest: seq<Request>)
    ensures Run(s, [r] + rest) == Run(Step(s, r).0, rest)
    ensures NormalServed(s, [r] + rest) == NormalServedBy(s, r) + NormalServed(Step(s, r).0, rest)
    ensures CallCount([r] + rest) == (if r.CallNextTicket? then 1 else 0) + CallCount(rest)
  {
    assert ([r] + rest)[0] == r && ([r] + rest)[1..] == rest;
  }

  /** The state after issuing Normal and then three Preferencial tickets
      from the initial state: N001 waits behind P001, P002 and P003. */
  const ResetRace: State := State(2, 4, ["N001"], ["P001", "P002", "P003"], 0, None, 4, [], 0)

  /** ResetRace is reached: it is the fourth issue after the three of
      `ScenarioIssues`, which hands out P003. */
  lemma ResetRaceReachable()
    ensures Issue(ScenarioQueued, "Preferencial") == (ResetRace, Success(Issued("P003", "Preferencial")))
  {
    assert DigitChar(3) == '3' && ToDecimal(3) == "3";
    assert Zeros(2) == "00" && PadStart("3", CodeWidth) == "003";
    assert ParseType("Preferencial") == Some(Preferencial);
    assert ScenarioQueued.preferencialQueue + ["P003"] == ["P001", "P002", "P003"];
    IssueFrom(ScenarioQueued, "Preferencial", Preferencial, "P003", ResetRace);
  }

  /** Three calls from one station with a reset after the first. */
  function ResetRaceRequests(station: Station): seq<Request> {
    [CallNextTicket(station, 1), ResetTickets, CallNextTicket(station, 2), CallNextTicket(station, 3)]
  }

  /** The states the race passes through: after the first call, the reset,
      the second call and the third call. */
  function RaceStates(station: Station): (State, State, State, State) {
    (State(2, 4, ["N001"], ["P002", "P003"], 1, Some(Call("P001", station)), 4, [], 1),
     State(1, 1, ["N001"], ["P002", "P003"], 0, None, 4, [], 0),
     State(1, 1, ["N001"], ["P003"], 1, Some(Call("P002", station)), 4, [], 2),
     State(1, 1, ["N001"], [], 2, Some(Call("P003", station)), 4, [Call("P002", station)], 3))
  }

  lemma RaceSteps(station: Station)
    ensures var (s1, s2, s3, s4) := RaceStates(station);
      && Step(ResetRace, CallNextTicket(station, 1)).0 == s1
      && Step(s1, ResetTickets).0 == s2
      && Step(s2, CallNextTicket(station, 2)).0 == s3
      && Step(s3, CallNextTicket(station, 3)).0 == s4
  {
    var (s1, s2, s3, s4) := RaceStates(station);
    assert ResetRace.preferencialQueue[1..] == s1.preferencialQueue;
    assert s2.preferencialQueue[1..] == s3.preferencialQueue;
    assert s3.preferencialQueue[1..] == [];
  }

  /** A reset between calls defeats the bound: it zeroes the budget and
      keeps the queues, so three calls serve P001, P002 and P003 while N001
      waits throughout. */
  lemma ResetDefeatsBoundedWaiting(station: Station)
    ensures Valid(ResetRace) && |ResetRace.normalQueue| > 0
    ensures CallCount(ResetRaceRequests(station)) == 3
    ensures NormalServed(ResetRace, ResetRaceRequests(station)) == []
    ensures Run(ResetRace, ResetRaceRequests(station)).normalQueue == ["N001"]
  {
    var c1, c2, c3 := CallNextTicket(station, 1), CallNextTicket(station, 2), CallNextTicket(station, 3);
    var t2 := [c2] + [c3];
    var t1 := [ResetTickets] + t2;
    assert ResetRaceRequests(station) == [c1] + t1;
    var (s1, s2, s3, s4) := RaceStates(station);
    RaceSteps(station);
    RunCons(ResetRace, c1, t1);
    RunCons(s1, ResetTickets, t2);
    RunCons(s2, c2, [c3]);
    assert [c3] == [c3] + [];
    RunCons(s3, c3, []);
  }
}

/** Properties relating several server transitions: the invariant over any
    run of requests, numbering between resets, reading display codes
    back, and what reset keeps and what it restarts. */
module ServerLaws {
  import opened Common
  import opened Decimal
  import opened Ticketing

  lemma InitialValid()
    ensures Valid(Initial)
  {
  }

  /** The budget stays in [0, 2], the history at five entries or fewer,
      after any sequence of requests from a valid state. */
  lemma {:induction false} RunPreservesValid(s: State, reqs: seq<Request>)
    requires Valid(s)
    ensures Valid(Run(s, reqs))
    decreases |reqs|
  {
    if |reqs| > 0 {
      RunPreservesValid(Step(s, reqs[0]).0, reqs[1..]);
    }
  }

  /** Requests are handled one after another, each on the state the one
      before left: running two sequences in a row is running their
      concatenation. */
  lemma {:induction false} RunAppend(s: State, a: seq<Request>, b: seq<Request>)
    ensures Run(s, a + b) == Run(Run(s, a), b)
    decreases |a|
  {
    if |a| > 0 {
      assert (a + b)[0] == a[0] && (a + b)[1..] == a[1..] + b;
      RunAppend(Step(s, a[0]).0, a[1..], b);
    } else {
      assert a + b == b;
    }
  }

  /** The issued total only grows: reset does not touch it, and only a
      successful ticket request changes it. */
  lemma {:induction false} TotalNeverDecreases(s: State, reqs: seq<Request>)
    ensures Run(s, reqs).totalIssued >= s.totalIssued
    decreases |reqs|
  {
    if |reqs| > 0 {
      TotalNeverDecreases(Step(s, reqs[0]).0, reqs[1..]);
    }
  }

  predicate NoReset(reqs: seq<Request>) {
    forall i :: 0 <= i < |reqs| ==> !reqs[i].ResetTickets?
  }

  lemma StepKeepsNumbering(s: State, req: Request, cat: Category)
    requires !req.ResetTickets?
    ensures Next(Step(s, req).0, cat) >= Next(s, cat)
  {
  }

  /** Between resets the numbering of each category only moves forward, so
      the tickets of a category are issued with increasing numbers. */
  lemma {:induction false} NumberingMonotoneWithoutReset(s: State, reqs: seq<Request>, cat: Category)
    requires NoReset(reqs)
    ensures Next(Run(s, reqs), cat) >= Next(s, cat)
    decreases |reqs|
  {
    if |reqs| > 0 {
      StepKeepsNumbering(s, reqs[0], cat);
      assert NoReset(reqs[1..]) by {
        forall i | 0 <= i < |reqs[1..]| ensures !reqs[1..][i].ResetTickets? {
          assert reqs[1..][i] == reqs[i + 1];
        }
      }
      NumberingMonotoneWithoutReset(Step(s, reqs[0]).0, reqs[1..], cat);
    }
  }

  /** Every issued code reads back as the category and number it was
      issued for. */
  lemma ParseDisplayCode(cat: Category, n: nat)
    ensures ParseCode(DisplayCode(cat, n)) == Some(Ticket(cat, n))
  {
  }

  /** Two issued codes are equal only when category and number agree. */
  lemma DisplayCodeInjective(c1: Category, n1: nat, c2: Category, n2: nat)
    requires DisplayCode(c1, n1) == DisplayCode(c2, n2)
    ensures c1 == c2 && n1 == n2
  {
  }

  /** The ticket a successful request hands out reads back as the number
      the counter held before the request. */
  lemma IssuedCodeNumber(s: State, tipo: string)
    requires ParseType(tipo).Some?
    ensures Issue(s, tipo).1.Success?
    ensures ParseCode(Issue(s, tipo).1.value.code)
         == Some(Ticket(ParseType(tipo).value, Next(s, ParseType(tipo).value)))
  {
  }

  /** A call neither loses nor invents tickets: the served code plus both
      queues afterwards are exactly the tickets queued before. */
  lemma CallConservesTickets(s: State, station: Station, now: nat)
    requires CallNext(s, station, now).1.Success?
    ensures var (s', r) := CallNext(s, station, now);
      multiset(s'.normalQueue) + multiset(s'.preferencialQueue) + multiset{r.value.code}
        == multiset(s.normalQueue) + multiset(s.preferencialQueue)
  {
    var q := if ServesPreferencial(s) then s.preferencialQueue else s.normalQueue;
    assert q == [q[0]] + q[1..];
  }

  /** Between resets the tickets of a category get strictly increasing
      numbers: a ticket issued after another of the same category, with no
      reset in between, reads back as a larger number. */
  lemma IssuedNumbersIncrease(s: State, tipo: string, reqs: seq<Request>)
    requires ParseType(tipo).Some? && NoReset(reqs)
    ensures var (s1, first) := Issue(s, tipo);
      var second := Issue(Run(s1, reqs), tipo).1;
      && first.Success? && second.Success?
      && ParseCode(first.value.code).Some? && ParseCode(second.value.code).Some?
      && ParseCode(second.value.code).value.category == ParseCode(first.value.code).value.category
      && ParseCode(second.value.code).value.number > ParseCode(first.value.code).value.number
  {
    var cat := ParseType(tipo).value;
    var s1 := Issue(s, tipo).0;
    IssuedCodeNumber(s, tipo);
    NumberingMonotoneWithoutReset(s1, reqs, cat);
    IssuedCodeNumber(Run(s1, reqs), tipo);
  }

  /** Statistics requests, however many, leave the state exactly as it was,
      so repeated snapshots without mutations are identical. */
  lemma {:induction false} StatsRunChangesNothing(s: State, reqs: seq<Request>)
    requires forall i :: 0 <= i < |reqs| ==> reqs[i].GetStats?
    ensures Run(s, reqs) == s
    decreases |reqs|
  {
    if |reqs| > 0 {
      assert reqs[0].GetStats?;
      StatsRunChangesNothing(s, reqs[1..]);
    }
  }

  /** Reset is idempotent. */
  lemma ResetIdempotent(s: State)
    ensures Reset(Reset(s).0).0 == Reset(s).0
  {
  }

  /** Numbering starts over after a reset: the next Normal ticket is N001
      again, even if an older N001 is still waiting in the queue. */
  lemma ResetRestartsNumbering(s: State)
    ensures Issue(Reset(s).0, "Normal").1 == Success(Issued("N001", "Normal"))
    ensures Issue(Reset(s).0, "Preferencial").1 == Success(Issued("P001", "Preferencial"))
  {
    FirstCodes();
  }

  /** A recall leaves the queues and the current call alone and repeats
      the announcement of the same ticket. */
  lemma RecallKeepsCall(s: State, station: Station, now: nat)
    requires Recall(s, station, now).1.Success?
    ensures Stats(Recall(s, station, now).0) == Stats(s).(lastAudio := now)
  {
  }

  /** The states after issuing one Normal and then two Preferencial
      tickets from the initial state. */
  const ScenarioFirst: State := State(2, 1, ["N001"], [], 0, None, 1, [], 0)
  const ScenarioSecond: State := State(2, 2, ["N001"], ["P001"], 0, None, 2, [], 0)
  const ScenarioQueued: State := State(2, 3, ["N001"], ["P001", "P002"], 0, None, 3, [], 0)

  /** The first codes of each category. */
  lemma FirstCodes()
    ensures DisplayCode(Normal, 1) == "N001"
    ensures DisplayCode(Preferencial, 1) == "P001"
    ensures DisplayCode(Preferencial, 2) == "P002"
  {
    assert DigitChar(1) == '1' && DigitChar(2) == '2';
    assert ToDecimal(1) == "1" && ToDecimal(2) == "2";
    assert Zeros(2) == "00";
    assert PadStart("1", CodeWidth) == "001";
    assert PadStart("2", CodeWidth) == "002";
  }

  lemma IssueFrom(s: State, tipo: string, cat: Category, code: string, s': State)
    requires ParseType(tipo) == Some(cat)
    requires DisplayCode(cat, Next(s, cat)) == code
    requires s' == match cat
      case Normal => s.(nextNormal := s.nextNormal + 1, normalQueue := s.normalQueue + [code],
                        totalIssued := s.totalIssued + 1)
      case Preferencial => s.(nextPreferencial := s.nextPreferencial + 1,
                              preferencialQueue := s.preferencialQueue + [code],
                              totalIssued := s.totalIssued + 1)
    ensures Issue(s, tipo) == (s', Success(Issued(code, tipo)))
  {
  }

  lemma FirstIssue()
    ensures Issue(Initial, "Normal") == (ScenarioFirst, Success(Issued("N001", "Normal")))
  {
    FirstCodes();
    assert ParseType("Normal") == Some(Normal);
    assert Initial.normalQueue + ["N001"] == ["N001"];
    IssueFrom(Initial, "Normal", Normal, "N001", ScenarioFirst);
  }

  lemma SecondIssue()
    ensures Issue(ScenarioFirst, "Preferencial") == (ScenarioSecond, Success(Issued("P001", "Preferencial")))
  {
    FirstCodes();
    assert ParseType("Preferencial") == Some(Preferencial);
    assert ScenarioFirst.preferencialQueue + ["P001"] == ["P001"];
    IssueFrom(ScenarioFirst, "Preferencial", Preferencial, "P001", ScenarioSecond);
  }

  lemma ThirdIssue()
    ensures Issue(ScenarioSecond, "Preferencial") == (ScenarioQueued, Success(Issued("P002", "Preferencial")))
  {
    FirstCodes();
    assert ParseType("Preferencial") == Some(Preferencial);
    assert ScenarioSecond.preferencialQueue + ["P002"] == ["P001", "P002"];
    IssueFrom(ScenarioSecond, "Preferencial", Preferencial, "P002", ScenarioQueued);
  }

  /** From the initial state, issuing Normal, Preferencial, Preferencial
      hands out N001, P001, P002 and queues them. */
  lemma ScenarioIssues()
    ensures Issue(Initial, "Normal") == (ScenarioFirst, Success(Issued("N001", "Normal")))
    ensures Issue(ScenarioFirst, "Preferencial") == (ScenarioSecond, Success(Issued("P001", "Preferencial")))
    ensures Issue(ScenarioSecond, "Preferencial") == (ScenarioQueued, Success(Issued("P002", "Preferencial")))
  {
    FirstIssue();
    SecondIssue();
    ThirdIssue();
  }

  /** From those queues, three calls serve Preferencial, Preferencial,
      Normal, the budget climbing to 2 and dropping back to 0; a fourth
      call then finds both queues empty. */
  lemma ScenarioCalls(station: Station)
    ensures
      var (s4, c1) := CallNext(ScenarioQueued, station, 1);
      var (s5, c2) := CallNext(s4, station, 2);
      var (s6, c3) := CallNext(s5, station, 3);
      && c1 == Success(Call("P001", station)) && s4.priorityStreak == 1
      && c2 == Success(Call("P002", station)) && s5.priorityStreak == 2
      && c3 == Success(Call("N001", station)) && s6.priorityStreak == 0
      && s6.history == [Call("P002", station), Call("P001", station)]
      && CallNext(s6, station, 4) == (s6, Failure(QueuesEmpty))
  {
  }
}

/** The ticketing server of `server.js`: one state record holding the two
    numbering counters, the Normal and Preferencial FIFO queues, the
    priority budget, the current call, the issued total, the short call
    history and the announcement timestamp; and each route handler body as
    a pure transition from a state to a new state and a reply. */
module Ticketing {
  import opened Common
  import opened Decimal

  /** The operator station (`triagem`) a call is made from. */
  type Station = string

  datatype Category = Normal | Preferencial

  /** Minimum width of the numeric part of a display code. */
  const CodeWidth: nat := 3
  /** Entries kept in `ultimasChamadas`. */
  const HistoryLimit: nat := 5
  /** Preferencial tickets that may be served in a row while Normal ones wait. */
  const PriorityBudget: int := 2

  function Letter(cat: Category): char {
    match cat
    case Normal => 'N'
    case Preferencial => 'P'
  }

  function Other(cat: Category): Category {
    match cat
    case Normal => Preferencial
    case Preferencial => Normal
  }

  /** The `tipo` of a ticket request; only the two exact spellings are accepted. */
  function ParseType(tipo: string): (r: Option<Category>)
    ensures r == Some(Normal) <==> tipo == "Normal"
    ensures r == Some(Preferencial) <==> tipo == "Preferencial"
  {
    if tipo == "Normal" then Some(Normal)
    else if tipo == "Preferencial" then Some(Preferencial)
    else None
  }

  /** The printed code of ticket number `n`: the category letter followed
      by the decimal of `n` left-padded with zeros to three digits. Padding
      never truncates, so 1000 is written with four digits. */
  function DisplayCode(cat: Category, n: nat): (code: string)
    ensures |code| == 1 + Max(CodeWidth, |ToDecimal(n)|)
    ensures code[0] == Letter(cat)
    ensures AllDigits(code[1..]) && Value(code[1..]) == n
    ensures code[|code| - |ToDecimal(n)|..] == ToDecimal(n)
  {
    var s := ToDecimal(n);
    var digits := PadStart(s, CodeWidth);
    PaddedValue(n, CodeWidth);
    var code := [Letter(cat)] + digits;
    assert code[1..] == digits;
    assert code[|code| - |s|..] == digits[|digits| - |s|..];
    code
  }

  /** The ticket a display code stands for. */
  datatype Ticket = Ticket(category: Category, number: nat)

  /** Reads a display code back: a category letter followed by at least
      one digit. */
  function ParseCode(code: string): Option<Ticket> {
    if |code| < 2 || !AllDigits(code[1..]) then None
    else if code[0] == 'N' then Some(Ticket(Normal, Value(code[1..])))
    else if code[0] == 'P' then Some(Ticket(Preferencial, Value(code[1..])))
    else None
  }

  /** `chamadaAtual` and the entries of `ultimasChamadas`: `{senha, triagem}`. */
  datatype Call = Call(code: string, station: Station)

  datatype State = State(
    nextNormal: nat,              // proximaSenhaNormal
    nextPreferencial: nat,        // proximaSenhaPreferencial
    normalQueue: seq<string>,     // filaNormal, head first
    preferencialQueue: seq<string>, // filaPreferencial, head first
    priorityStreak: int,          // prioridadePreferencial
    current: Option<Call>,        // chamadaAtual
    totalIssued: nat,             // totalSenhasGeral
    history: seq<Call>,           // ultimasChamadas, most recent first (a loaded one is oldest first)
    lastAudio: nat                // lastAudioTimestamp
  )

  /** The state the server starts in, before anything is loaded. */
  const Initial: State := State(1, 1, [], [], 0, None, 0, [], 0)

  /** A state the startup load can leave: the stored total and counters
      (or the initial values where a row is missing) and at most five
      stored calls, with empty queues, no current call and a zero budget
      and timestamp. Every such state satisfies the invariant, so the laws
      stated for any valid state hold after a restart too. */
  function LoadedState(total: nat, nextNormal: nat, nextPreferencial: nat, stored: seq<Call>): (s: State)
    requires |stored| <= HistoryLimit
    ensures Valid(s)
    ensures s.totalIssued == total && s.history == stored
    ensures Next(s, Normal) == nextNormal && Next(s, Preferencial) == nextPreferencial
    ensures s.normalQueue == [] && s.preferencialQueue == [] && s.current == None
  {
    State(nextNormal, nextPreferencial, [], [], 0, None, total, stored, 0)
  }

  /** What every reachable state satisfies: the budget lies in [0, 2], the
      history holds at most five calls, and an announcement timestamp is
      set only while some ticket is being called. */
  predicate Valid(s: State) {
    && 0 <= s.priorityStreak <= PriorityBudget
    && |s.history| <= HistoryLimit
    && (s.current.None? ==> s.lastAudio == 0)
  }

  function Queue(s: State, cat: Category): seq<string> {
    match cat
    case Normal => s.normalQueue
    case Preferencial => s.preferencialQueue
  }

  function Next(s: State, cat: Category): nat {
    match cat
    case Normal => s.nextNormal
    case Preferencial => s.nextPreferencial
  }

  datatype Error = InvalidType | QueuesEmpty | NothingToRecall

  /** The HTTP status each error is answered with: 400 for a bad ticket
      type, 404 when there is nothing to call or recall. */
  function Status(e: Error): (code: nat)
    ensures code == 400 <==> e == InvalidType
    ensures code == 400 || code == 404
  {
    match e
    case InvalidType => 400
    case QueuesEmpty => 404
    case NothingToRecall => 404
  }

  /** The `error` text of each error reply. */
  function ErrorMessage(e: Error): string {
    match e
    case InvalidType => "Tipo de senha inválido."
    case QueuesEmpty => "Não há senhas na fila."
    case NothingToRecall => "Nenhuma senha para rechamar nesta triagem."
  }

  /** The reply of a successful ticket request: `{senha, tipo}`. */
  datatype Issued = Issued(code: string, tipo: string)

  /** Route `/api/gerar-senha`: issues the next ticket of the requested
      category, appends its code to that queue and counts it. */
  function Issue(s: State, tipo: string): (r: (State, Result<Issued, Error>))
    ensures ParseType(tipo).None? ==> r == (s, Failure(InvalidType))
    ensures ParseType(tipo).Some? ==>
      var cat := ParseType(tipo).value;
      var code := DisplayCode(cat, Next(s, cat));
      && r.1 == Success(Issued(code, tipo))
      && Queue(r.0, cat) == Queue(s, cat) + [code]
      && Next(r.0, cat) == Next(s, cat) + 1
      && Queue(r.0, Other(cat)) == Queue(s, Other(cat))
      && Next(r.0, Other(cat)) == Next(s, Other(cat))
      && r.0.totalIssued == s.totalIssued + 1
      && r.0.priorityStreak == s.priorityStreak
      && r.0.current == s.current
      && r.0.history == s.history
      && r.0.lastAudio == s.lastAudio
  {
    match ParseType(tipo)
    case None => (s, Failure(InvalidType))
    case Some(cat) =>
      var code := DisplayCode(cat, Next(s, cat));
      var s' := match cat
        case Normal => s.(nextNormal := s.nextNormal + 1, normalQueue := s.normalQueue + [code])
        case Preferencial => s.(nextPreferencial := s.nextPreferencial + 1,
                                preferencialQueue := s.preferencialQueue + [code]);
      (s'.(totalIssued := s.totalIssued + 1), Success(Issued(code, tipo)))
  }

  /** Whether the next call serves the Preferencial queue: it does when that
      queue is non-empty and either budget remains or no Normal ticket waits. */
  predicate ServesPreferencial(s: State) {
    |s.preferencialQueue| > 0 && (s.priorityStreak < PriorityBudget || |s.normalQueue| == 0)
  }

  /** The bounded-priority rule of `/api/chamar-proxima`: the queue to serve
      and the budget afterwards, or None when both queues are empty. */
  function Arbitrate(s: State): (pick: Option<(Category, int)>)
    ensures pick.None? <==> |s.normalQueue| == 0 && |s.preferencialQueue| == 0
    ensures pick.Some? ==> (pick.value.0 == Preferencial <==> ServesPreferencial(s))
    ensures pick.Some? ==> |Queue(s, pick.value.0)| > 0
    ensures pick.Some? && pick.value.0 == Normal ==> pick.value.1 == 0
    ensures pick.Some? && pick.value.0 == Preferencial ==>
      pick.value.1 == if s.priorityStreak < PriorityBudget then s.priorityStreak + 1 else s.priorityStreak
  {
    if s.priorityStreak < PriorityBudget && |s.preferencialQueue| > 0 then
      Some((Preferencial, s.priorityStreak + 1))
    else if |s.normalQueue| > 0 then
      Some((Normal, 0))
    else if |s.preferencialQueue| > 0 then
      Some((Preferencial, s.priorityStreak))
    else
      None
  }

  /** The history after a new call: the call it replaces (if any) goes in
      front and, if that makes six entries, the oldest is dropped. */
  function PushHistory(prev: Option<Call>, h: seq<Call>): (h': seq<Call>)
    ensures prev.None? ==> h' == h
    ensures prev.Some? ==> |h'| == if |h| + 1 > HistoryLimit then |h| else |h| + 1
    ensures prev.Some? ==> 1 <= |h'| && h'[0] == prev.value && h'[1..] == h[..|h'| - 1]
    ensures |h| <= HistoryLimit ==> |h'| <= HistoryLimit
  {
    match prev
    case None => h
    case Some(c) =>
      var u := [c] + h;
      if |u| > HistoryLimit then u[..|u| - 1] else u
  }

  function Dequeue(s: State, cat: Category): State
    requires |Queue(s, cat)| > 0
  {
    match cat
    case Normal => s.(normalQueue := s.normalQueue[1..])
    case Preferencial => s.(preferencialQueue := s.preferencialQueue[1..])
  }

  /** Route `/api/chamar-proxima`: serves one ticket by the bounded-priority
      rule, files the previous call into the history and makes the served
      ticket the current call, stamped with `now`. */
  function CallNext(s: State, station: Station, now: nat): (r: (State, Result<Call, Error>))
    ensures r.1.Failure? <==> |s.normalQueue| == 0 && |s.preferencialQueue| == 0
    ensures r.1.Failure? ==> r == (s, Failure(QueuesEmpty))
    ensures r.1.Success? && ServesPreferencial(s) ==>
      && r.1.value.code == s.preferencialQueue[0]
      && r.0.preferencialQueue == s.preferencialQueue[1..]
      && r.0.normalQueue == s.normalQueue
      && r.0.priorityStreak == if s.priorityStreak < PriorityBudget then s.priorityStreak + 1 else s.priorityStreak
    ensures r.1.Success? && !ServesPreferencial(s) ==>
      && r.1.value.code == s.normalQueue[0]
      && r.0.normalQueue == s.normalQueue[1..]
      && r.0.preferencialQueue == s.preferencialQueue
      && r.0.priorityStreak == 0
    ensures r.1.Success? ==>
      && r.1.value.station == station
      && r.0.current == Some(r.1.value)
      && r.0.history == PushHistory(s.current, s.history)
      && r.0.lastAudio == now
      && r.0.nextNormal == s.nextNormal
      && r.0.nextPreferencial == s.nextPreferencial
      && r.0.totalIssued == s.totalIssued
  {
    match Arbitrate(s)
    case None => (s, Failure(QueuesEmpty))
    case Some((cat, streak)) =>
      var q := Queue(s, cat);
      var call := Call(q[0], station);
      var s' := Dequeue(s, cat).(
        priorityStreak := streak,
        history := PushHistory(s.current, s.history),
        lastAudio := now,
        current := Some(call));
      (s', Success(call))
  }

  /** The `mensagem` of a successful recall, naming the code and station. */
  function RecallMessage(c: Call): string {
    "Rechamando senha: " + c.code + " na Triagem " + c.station
  }

  /** Route `/api/rechamar`: re-announces the current call, but only for the
      station that made it; nothing but the timestamp changes. */
  function Recall(s: State, station: Station, now: nat): (r: (State, Result<string, Error>))
    ensures r.1.Success? <==> s.current.Some? && s.current.value.station == station
    ensures r.1.Success? ==> r.0 == s.(lastAudio := now) && r.1.value == RecallMessage(s.current.value)
    ensures r.1.Failure? ==> r == (s, Failure(NothingToRecall))
  {
    if s.current.Some? && s.current.value.station == station then
      (s.(lastAudio := now), Success(RecallMessage(s.current.value)))
    else
      (s, Failure(NothingToRecall))
  }

  const ResetMessage: string := "As senhas foram reiniciadas com sucesso."

  /** Route `/api/resetar-senhas`: restarts numbering and clears the display
      state, keeping both queues and the issued total. */
  function Reset(s: State): (r: (State, string))
    ensures r.0.nextNormal == 1 && r.0.nextPreferencial == 1
    ensures r.0.current == None && r.0.history == []
    ensures r.0.priorityStreak == 0 && r.0.lastAudio == 0
    ensures r.0.normalQueue == s.normalQueue && r.0.preferencialQueue == s.preferencialQueue
    ensures r.0.totalIssued == s.totalIssued
    ensures Valid(r.0)
    ensures r.1 == ResetMessage
  {
    (s.(nextNormal := 1, nextPreferencial := 1, current := None,
        priorityStreak := 0, lastAudio := 0, history := []), ResetMessage)
  }

  /** The reply of `/api/estatisticas`. */
  datatype Snapshot = Snapshot(
    totalIssued: nat,        // totalGeral
    totalQueued: nat,        // totalFilas
    current: Option<Call>,   // chamadaAtual
    history: seq<Call>,      // ultimasChamadas
    lastAudio: nat           // lastAudioTimestamp
  )

  /** Route `/api/estatisticas`: a projection of the state. */
  function Stats(s: State): (snap: Snapshot)
    ensures snap.totalQueued == |s.normalQueue| + |s.preferencialQueue|
    ensures snap.totalIssued == s.totalIssued
    ensures snap.current == s.current && snap.history == s.history
    ensures snap.lastAudio == s.lastAudio
  {
    Snapshot(s.totalIssued, |s.normalQueue| + |s.preferencialQueue|, s.current, s.history, s.lastAudio)
  }

  datatype Request =
    | IssueTicket(tipo: string)
    | CallNextTicket(station: Station, now: nat)
    | RecallTicket(station: Station, now: nat)
    | ResetTickets
    | GetStats

  datatype Response =
    | IssuedReply(issued: Issued)
    | CalledReply(call: Call)
    | MessageReply(message: string)
    | StatsReply(snapshot: Snapshot)
    | ErrorReply(status: nat, error: string)

  function Reply<R>(r: Result<R, Error>, ok: R -> Response): Response {
    match r
    case Success(v) => ok(v)
    case Failure(e) => ErrorReply(Status(e), ErrorMessage(e))
  }

  /** One request handled to completion against the shared state: the
      server processes requests one at a time, so this is the whole
      behaviour of a request. Every error leaves the state as it was,
      statistics never change it, and validity is preserved. */
  function Step(s: State, req: Request): (r: (State, Response))
    ensures Valid(s) ==> Valid(r.0)
    ensures r.1.ErrorReply? ==> r.0 == s
    ensures req.GetStats? ==> r == (s, StatsReply(Stats(s)))
  {
    match req
    case IssueTicket(tipo) =>
      var (s', res) := Issue(s, tipo);
      (s', Reply(res, (v: Issued) => IssuedReply(v)))
    case CallNextTicket(station, now) =>
      var (s', res) := CallNext(s, station, now);
      (s', Reply(res, (v: Call) => CalledReply(v)))
    case RecallTicket(station, now) =>
      var (s', res) := Recall(s, station, now);
      (s', Reply(res, (v: string) => MessageReply(v)))
    case ResetTickets =>
      var (s', msg) := Reset(s);
      (s', MessageReply(msg))
    case GetStats =>
      (s, StatsReply(Stats(s)))
  }

  /** The state after a sequence of requests, handled in order. */
  function Run(s: State, reqs: seq<Request>): State
    decreases |reqs|
  {
    if |reqs| == 0 then s else Run(Step(s, reqs[0]).0, reqs[1..])
  }
}

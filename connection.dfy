/** The backend connection monitor: a status, an attempt counter, a 60 s auto-retry
    interval and 2 s fast retries, driven by probe answers and timer firings.

    `testConnection` is asynchronous. It counts the attempt before its first `await`
    and decides after the backend answers. The model therefore splits a probe into
    `BeginProbe` (the synchronous part) and `CompleteProbe(outcome)` (the part after the
    answer); other events may happen in between, as in the browser's event loop.
    The pure record `Monitor` and the functions over it are the specification; the
    class `ConnectionMonitor` holds the same state in fields and its methods are proved
    to follow those functions. */
module Connection {
  import opened Seqs

  datatype Status = Connecting | Connected | Failed

  /** What one probe finds: the session check failed, the `profiles` query answered with
      an error code, a call threw, or both checks passed. */
  datatype Outcome = AuthError | DbError(code: string) | Thrown | Ok

  /** The answer to a single `select count ... limit 1` query. */
  datatype QueryAnswer = QueryOk | QueryError(code: string) | QueryThrew

  /** What `healthCheck` reports: the query's error object, or the thrown value. */
  datatype HealthError = ErrorObject(code: string) | ThrownValue
  datatype Health = Health(healthy: bool, error: Option<HealthError>)

  /** One line of the additional-table sweep: whether the table answered without error. */
  datatype TableReport = TableReport(table: string, accessible: bool)

  const MaxAttempts: nat := 3
  /** PostgreSQL's "relation does not exist": the schema has not been migrated. */
  const SchemaMissing: string := "42P01"
  const StartupDelayMs: nat := 500
  const FastRetryDelayMs: nat := 2000
  const AutoRetryPeriodMs: nat := 60000
  const AdditionalTables: seq<string> :=
    ["products", "orders", "notifications", "hero_videos", "delivery_cities", "themes"]

  /** The monitor's whole state. `autoRetryArmed` is the live 60 s interval;
      `pendingFastRetries` counts scheduled 2 s `testConnection` timeouts;
      `probesInFlight` counts probes waiting for a backend answer; `startupPending` is
      the 500 ms timeout set when the module loads. */
  datatype Monitor = Monitor(
    status: Status,
    attempts: nat,
    autoRetryArmed: bool,
    pendingFastRetries: nat,
    probesInFlight: nat,
    startupPending: bool)

  function Initial(): (m: Monitor)
    ensures m.status == Connecting && m.attempts == 0 && !m.autoRetryArmed
    ensures m.pendingFastRetries == 0 && m.probesInFlight == 0 && m.startupPending
  {
    Monitor(Connecting, 0, false, 0, 0, true)
  }

  /** A failure that the fast-retry budget applies to. */
  predicate Transient(o: Outcome) {
    o.AuthError? || o.Thrown? || (o.DbError? && o.code != SchemaMissing)
  }

  /** The timer invariant: a failed monitor always has its auto-retry armed, and a
      connected one never has. */
  ghost predicate Inv(m: Monitor) {
    (m.status == Failed ==> m.autoRetryArmed) && (m.status == Connected ==> !m.autoRetryArmed)
  }

  /** `updateConnectionStatus`: store the status; `failed` clears any previous interval
      and arms exactly one new one, any other status clears it. */
  function UpdateStatus(m: Monitor, s: Status): (r: Monitor)
    ensures r.status == s && r.autoRetryArmed == (s == Failed)
    ensures r.attempts == m.attempts && r.pendingFastRetries == m.pendingFastRetries
    ensures r.probesInFlight == m.probesInFlight && r.startupPending == m.startupPending
  {
    m.(status := s, autoRetryArmed := s == Failed)
  }

  /** The start of `testConnection`: count the attempt, then wait for the backend. */
  function BeginProbeStep(m: Monitor): (r: Monitor)
    ensures r.attempts == m.attempts + 1 && r.probesInFlight == m.probesInFlight + 1
    ensures r.status == m.status && r.autoRetryArmed == m.autoRetryArmed
    ensures r.pendingFastRetries == m.pendingFastRetries && r.startupPending == m.startupPending
  {
    m.(attempts := m.attempts + 1, probesInFlight := m.probesInFlight + 1)
  }

  /** The shared failure branch: schedule a 2 s retry while attempts remain, otherwise fail. */
  function BackoffStep(m: Monitor): (r: Monitor)
    ensures m.attempts < MaxAttempts ==>
      r == m.(pendingFastRetries := m.pendingFastRetries + 1)
    ensures m.attempts >= MaxAttempts ==> r == UpdateStatus(m, Failed)
  {
    if m.attempts < MaxAttempts then m.(pendingFastRetries := m.pendingFastRetries + 1)
    else UpdateStatus(m, Failed)
  }

  /** The rest of `testConnection`, once the backend has answered. */
  function CompleteProbeStep(m: Monitor, o: Outcome): (r: Monitor)
    requires m.probesInFlight > 0
    ensures r.attempts == m.attempts && r.probesInFlight == m.probesInFlight - 1
    ensures r.startupPending == m.startupPending
    ensures Transient(o) && m.attempts < MaxAttempts ==>
      r.status == m.status && r.autoRetryArmed == m.autoRetryArmed
      && r.pendingFastRetries == m.pendingFastRetries + 1
    ensures Transient(o) && m.attempts >= MaxAttempts ==>
      r.status == Failed && r.autoRetryArmed && r.pendingFastRetries == m.pendingFastRetries
    ensures o == DbError(SchemaMissing) ==>
      r.status == Failed && r.autoRetryArmed && r.pendingFastRetries == m.pendingFastRetries
    ensures o == Ok ==>
      r.status == Connected && !r.autoRetryArmed && r.pendingFastRetries == m.pendingFastRetries
  {
    var answered := m.(probesInFlight := m.probesInFlight - 1);
    match o
    case AuthError => BackoffStep(answered)
    case DbError(code) =>
      if code == SchemaMissing then UpdateStatus(answered, Failed) else BackoffStep(answered)
    case Thrown => BackoffStep(answered)
    case Ok => UpdateStatus(answered, Connected)
  }

  /** A probe whose answer arrives before anything else happens. */
  function ProbeStep(m: Monitor, o: Outcome): (r: Monitor)
    ensures r.attempts == m.attempts + 1 && r.probesInFlight == m.probesInFlight
  {
    CompleteProbeStep(BeginProbeStep(m), o)
  }

  /** The 500 ms startup timeout fires and starts the first probe. */
  function FireStartup(m: Monitor): (r: Monitor)
    requires m.startupPending
    ensures !r.startupPending && r.attempts == m.attempts + 1
    ensures r.probesInFlight == m.probesInFlight + 1 && r.status == m.status
  {
    BeginProbeStep(m.(startupPending := false))
  }

  /** One scheduled 2 s timeout is used up. */
  function ConsumeFastRetry(m: Monitor): (r: Monitor)
    requires m.pendingFastRetries > 0
    ensures r.pendingFastRetries == m.pendingFastRetries - 1
    ensures r.attempts == m.attempts && r.status == m.status
  {
    m.(pendingFastRetries := m.pendingFastRetries - 1)
  }

  /** A 2 s timeout fires and starts another probe. */
  function FireFastRetry(m: Monitor): (r: Monitor)
    requires m.pendingFastRetries > 0
    ensures r.pendingFastRetries == m.pendingFastRetries - 1
    ensures r.attempts == m.attempts + 1 && r.probesInFlight == m.probesInFlight + 1
  {
    BeginProbeStep(ConsumeFastRetry(m))
  }

  /** The assignments `reconnect` makes before it calls `testConnection`. */
  function ResetForReconnect(m: Monitor): (r: Monitor)
    ensures r.attempts == 0 && r.status == Connecting
    ensures r.autoRetryArmed == m.autoRetryArmed && r.pendingFastRetries == m.pendingFastRetries
    ensures r.probesInFlight == m.probesInFlight && r.startupPending == m.startupPending
  {
    m.(attempts := 0, status := Connecting)
  }

  /** `reconnect`: reset, then start a probe, whose synchronous part has counted one
      attempt by the time `reconnect` returns. No timer is cancelled. */
  function ReconnectStep(m: Monitor): (r: Monitor)
    ensures r.attempts == 1 && r.status == Connecting
    ensures r.probesInFlight == m.probesInFlight + 1
    ensures r.autoRetryArmed == m.autoRetryArmed && r.pendingFastRetries == m.pendingFastRetries
  {
    BeginProbeStep(ResetForReconnect(m))
  }

  /** The 60 s interval fires: it reconnects only if the status is still failed. */
  function Tick(m: Monitor): (r: Monitor)
    requires m.autoRetryArmed
    ensures m.status == Failed ==> r == ReconnectStep(m)
    ensures m.status != Failed ==> r == m
  {
    if m.status == Failed then ReconnectStep(m) else m
  }

  /** Every transition keeps the timer invariant. */
  lemma InvPreserved(m: Monitor, o: Outcome, s: Status)
    requires Inv(m)
    ensures Inv(UpdateStatus(m, s)) && Inv(BeginProbeStep(m)) && Inv(ReconnectStep(m))
    ensures m.probesInFlight > 0 ==> Inv(CompleteProbeStep(m, o))
    ensures m.startupPending ==> Inv(FireStartup(m))
    ensures m.pendingFastRetries > 0 ==> Inv(FireFastRetry(m))
    ensures m.autoRetryArmed ==> Inv(Tick(m))
  {
  }

  /** `healthCheck`: healthy exactly when the query returned no error and did not throw. */
  function HealthOf(answer: QueryAnswer): (h: Health)
    ensures h.healthy <==> answer == QueryOk
    ensures h.healthy <==> h.error == None
    ensures answer.QueryError? ==> h.error == Some(ErrorObject(answer.code))
  {
    match answer
    case QueryOk => Health(true, None)
    case QueryError(code) => Health(false, Some(ErrorObject(code)))
    case QueryThrew => Health(false, Some(ThrownValue))
  }

  /** A fast-retry chain: the first probe, then, each time a probe schedules a 2 s retry,
      that retry firing and its probe answering, until a probe schedules none or the
      answers run out. Yields the final state and the number of probes run. */
  function Chain(m: Monitor, answers: seq<Outcome>): (Monitor, nat)
    decreases |answers|
  {
    if answers == [] then (m, 0)
    else
      var after := ProbeStep(m, answers[0]);
      if after.pendingFastRetries > m.pendingFastRetries && |answers| > 1 then
        var (final, n) := Chain(ConsumeFastRetry(after), answers[1..]);
        (final, n + 1)
      else (after, 1)
  }

  /** A probe that schedules a retry does so only while its attempt number is below the budget. */
  lemma RetryOnlyUnderBudget(m: Monitor, o: Outcome)
    ensures ProbeStep(m, o).pendingFastRetries > m.pendingFastRetries ==> m.attempts + 1 < MaxAttempts
  {
  }

  /** A chain runs at most `MaxAttempts - attempts` probes (at least one when answers remain). */
  lemma {:induction false} ChainBounded(m: Monitor, answers: seq<Outcome>)
    ensures Chain(m, answers).1 <= if m.attempts < MaxAttempts then MaxAttempts - m.attempts else 1
    decreases |answers|
  {
    if answers != [] {
      var after := ProbeStep(m, answers[0]);
      if after.pendingFastRetries > m.pendingFastRetries && |answers| > 1 {
        RetryOnlyUnderBudget(m, answers[0]);
        ChainBounded(ConsumeFastRetry(after), answers[1..]);
      }
    }
  }

  /** From a reset counter, a chain runs at most three probes. */
  lemma ChainFromResetBounded(m: Monitor, answers: seq<Outcome>)
    requires m.attempts == 0
    ensures Chain(m, answers).1 <= MaxAttempts
  {
    ChainBounded(m, answers);
  }

  /** Transient failures exhaust the budget: from `attempts` below three, exactly
      `MaxAttempts - attempts` probes run and the monitor ends failed, its auto-retry armed. */
  lemma {:induction false} ChainExhausts(m: Monitor, answers: seq<Outcome>)
    requires m.attempts < MaxAttempts && |answers| >= MaxAttempts - m.attempts
    requires forall i :: 0 <= i < |answers| ==> Transient(answers[i])
    ensures Chain(m, answers).1 == MaxAttempts - m.attempts
    ensures Chain(m, answers).0.status == Failed && Chain(m, answers).0.autoRetryArmed
    decreases |answers|
  {
    var after := ProbeStep(m, answers[0]);
    if m.attempts + 1 < MaxAttempts {
      assert after.pendingFastRetries > m.pendingFastRetries;
      ChainExhausts(ConsumeFastRetry(after), answers[1..]);
    }
  }

  /** A missing schema fails the very first probe, whatever the counter, with no retry. */
  lemma SchemaMissingFailsFast(m: Monitor, answers: seq<Outcome>)
    requires answers != [] && answers[0] == DbError(SchemaMissing)
    ensures Chain(m, answers).1 == 1
    ensures Chain(m, answers).0.status == Failed && Chain(m, answers).0.autoRetryArmed
    ensures Chain(m, answers).0.pendingFastRetries == m.pendingFastRetries
  {
  }

  /** A successful probe connects and disarms the auto-retry but does not reset the counter. */
  lemma SuccessKeepsCount(m: Monitor)
    ensures ProbeStep(m, Ok).status == Connected && !ProbeStep(m, Ok).autoRetryArmed
    ensures ProbeStep(m, Ok).attempts == m.attempts + 1
  {
  }

  /** Overlapping chains: a 2 s retry left over from before a `reconnect` can still be
      pending when the new chain fails, so both kinds of timer are armed at once. */
  lemma BothTimersArmedReachable()
    ensures var m0 := FireStartup(Initial());
            var m1 := CompleteProbeStep(m0, AuthError);
            var m2 := CompleteProbeStep(ReconnectStep(m1), DbError(SchemaMissing));
            m2.status == Failed && m2.autoRetryArmed && m2.pendingFastRetries == 1
  {
  }

  /** Overlapping chains: retries left over from earlier chains push the counter past
      `MaxAttempts` while the status is still connecting. */
  lemma CounterPassesBudgetReachable()
    ensures var m0 := CompleteProbeStep(FireStartup(Initial()), AuthError);
            var m1 := CompleteProbeStep(ReconnectStep(m0), AuthError);
            var m2 := CompleteProbeStep(ReconnectStep(m1), AuthError);
            var m3 := ReconnectStep(m2);
            var m4 := FireFastRetry(FireFastRetry(FireFastRetry(m3)));
            m4.status == Connecting && m4.attempts == 4 && m4.attempts > MaxAttempts
  {
  }

  /** The module-level variables of the connection monitor, updated in place. */
  class ConnectionMonitor {
    var status: Status
    var attempts: nat
    var autoRetryArmed: bool
    var pendingFastRetries: nat
    var probesInFlight: nat
    var startupPending: bool

    function State(): Monitor
      reads this
    {
      Monitor(status, attempts, autoRetryArmed, pendingFastRetries, probesInFlight, startupPending)
    }

    ghost predicate Valid()
      reads this
    {
      Inv(State())
    }

    /** Module load: connecting, no attempts, no interval, the startup timeout set. */
    constructor ()
      ensures Valid() && State() == Initial()
    {
      status := Connecting;
      attempts := 0;
      autoRetryArmed := false;
      pendingFastRetries := 0;
      probesInFlight := 0;
      startupPending := true;
    }

    /** `getConnectionStatus`: reads the status and changes nothing. */
    method GetConnectionStatus() returns (s: Status)
      ensures s == status
    {
      s := status;
    }

    method UpdateConnectionStatus(s: Status)
      requires Valid()
      modifies this
      ensures Valid() && State() == UpdateStatus(old(State()), s)
    {
      status := s;
      if s == Failed {
        autoRetryArmed := true;
      } else if autoRetryArmed {
        autoRetryArmed := false;
      }
    }

    method BeginProbe()
      requires Valid()
      modifies this
      ensures Valid() && State() == BeginProbeStep(old(State()))
    {
      attempts := attempts + 1;
      probesInFlight := probesInFlight + 1;
    }

    method Backoff()
      requires Valid()
      modifies this
      ensures Valid() && State() == BackoffStep(old(State()))
    {
      if attempts < MaxAttempts {
        pendingFastRetries := pendingFastRetries + 1;
      } else {
        UpdateConnectionStatus(Failed);
      }
    }

    method CompleteProbe(o: Outcome)
      requires Valid() && probesInFlight > 0
      modifies this
      ensures Valid() && State() == CompleteProbeStep(old(State()), o)
    {
      probesInFlight := probesInFlight - 1;
      match o
      case AuthError => Backoff();
      case DbError(code) =>
        if code == SchemaMissing {
          UpdateConnectionStatus(Failed);
        } else {
          Backoff();
        }
      case Thrown => Backoff();
      case Ok => UpdateConnectionStatus(Connected);
    }

    /** A probe whose answer `o` arrives before any other event. */
    method Probe(o: Outcome)
      requires Valid()
      modifies this
      ensures Valid() && State() == ProbeStep(old(State()), o)
    {
      BeginProbe();
      CompleteProbe(o);
    }

    method StartupTimerFires()
      requires Valid() && startupPending
      modifies this
      ensures Valid() && State() == FireStartup(old(State()))
    {
      startupPending := false;
      BeginProbe();
    }

    method FastRetryFires()
      requires Valid() && pendingFastRetries > 0
      modifies this
      ensures Valid() && State() == FireFastRetry(old(State()))
    {
      pendingFastRetries := pendingFastRetries - 1;
      BeginProbe();
    }

    method Reconnect()
      requires Valid()
      modifies this
      ensures Valid() && State() == ReconnectStep(old(State()))
    {
      attempts := 0;
      status := Connecting;
      assert State() == ResetForReconnect(old(State()));
      BeginProbe();
    }

    method AutoRetryTick()
      requires Valid() && autoRetryArmed
      modifies this
      ensures Valid() && State() == Tick(old(State()))
    {
      if status == Failed {
        Reconnect();
      }
    }

    /** `healthCheck`: one query, reported to the caller; the monitor is not touched. */
    method HealthCheck(answer: QueryAnswer) returns (h: Health)
      ensures h == HealthOf(answer)
      ensures h.healthy <==> answer == QueryOk
    {
      h := HealthOf(answer);
    }

    /** `testAdditionalTables`: query each further table in turn and report which
        answered; `answerFor` stands for the backend. Nothing in the monitor changes. */
    method SweepAdditionalTables(answerFor: string -> QueryAnswer) returns (log: seq<TableReport>)
      ensures |log| == |AdditionalTables|
      ensures forall i :: 0 <= i < |log| ==>
        log[i].table == AdditionalTables[i] && (log[i].accessible <==> answerFor(AdditionalTables[i]) == QueryOk)
    {
      log := [];
      for i := 0 to |AdditionalTables|
        invariant |log| == i
        invariant forall k :: 0 <= k < i ==>
          log[k].table == AdditionalTables[k] && (log[k].accessible <==> answerFor(AdditionalTables[k]) == QueryOk)
      {
        var table := AdditionalTables[i];
        match answerFor(table)
        case QueryOk => log := log + [TableReport(table, true)];
        case QueryError(_) => log := log + [TableReport(table, false)];
        case QueryThrew => log := log + [TableReport(table, false)];
      }
    }
  }
}

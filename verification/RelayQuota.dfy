/** Relay byte quotas: tasks reserve bytes on shared 64-bit counters, first on their session's,
    then on the server's, one atomic operation at a time and in any interleaving. */
module RelayQuota {
  import opened Wrappers
  import opened Bytes
  import opened Sums

  const MODULUS: nat := U64_MAX + 1

  datatype Counter = Session(id: nat) | Total | Metric

  datatype Stage = AtSession | AtTotal

  /** Where a task stands in `reserve_relay_bytes`. `observed` is the value its next
      compare-exchange expects; without one the counter has yet to be looked at. */
  datatype Point =
    | Reserving(stage: Stage, observed: Option<u64>)
    | RollingBack
    | Counting
    | Committed
    | Refused

  datatype Task = Task(session: nat, count: u64, at: Point)

  /** Limits as configured; 0 means unlimited. */
  datatype Config = Config(sessionLimit: u64, totalLimit: u64)

  datatype State = State(counters: map<Counter, u64>, tasks: map<nat, Task>)

  /** A new request arrives, or a task performs its next atomic operation; a weak
      compare-exchange may fail without a reason. */
  datatype Step = Arrive(task: nat, session: nat, count: u64) | Act(task: nat, spurious: bool)

  function Value(s: State, c: Counter): u64
  {
    if c in s.counters then s.counters[c] else 0
  }

  function CounterAt(t: Task, stage: Stage): Counter
  {
    if stage == AtSession then Session(t.session) else Total
  }

  function LimitAt(cfg: Config, stage: Stage): u64
  {
    if stage == AtSession then cfg.sessionLimit else cfg.totalLimit
  }

  function Granted(stage: Stage): Point
  {
    if stage == AtSession then Reserving(AtTotal, None) else Counting
  }

  /** The check of the retry loop, on the value just seen. */
  function Observe(limit: u64, t: Task, stage: Stage, current: u64): Point
  {
    if current + t.count > U64_MAX || current + t.count > limit
    then (if stage == AtSession then Refused else RollingBack)
    else Reserving(stage, Some(current))
  }

  function Set(s: State, k: nat, t: Task, c: Counter, value: u64, at: Point): State
  {
    State(s.counters[c := value], s.tasks[k := t.(at := at)])
  }

  /** One atomic operation of `reserve_counter`. */
  function Reserve(cfg: Config, s: State, k: nat, t: Task, stage: Stage, observed: Option<u64>, spurious: bool): State
  {
    var c, limit := CounterAt(t, stage), LimitAt(cfg, stage);
    var value := Value(s, c);
    if observed.None? && limit == 0 then Set(s, k, t, c, (value + t.count) % MODULUS, Granted(stage))
    else if observed.Some? && observed.value == value && !spurious && value + t.count <= U64_MAX then
      Set(s, k, t, c, value + t.count, Granted(stage))
    else Set(s, k, t, c, value, Observe(limit, t, stage, value))
  }

  function Next(cfg: Config, s: State, step: Step): State
  {
    match step
    case Arrive(k, session, count) =>
      if k in s.tasks then s else s.(tasks := s.tasks[k := Task(session, count, Reserving(AtSession, None))])
    case Act(k, spurious) =>
      if k !in s.tasks then s else
      var t := s.tasks[k];
      match t.at
      case Reserving(stage, observed) => Reserve(cfg, s, k, t, stage, observed, spurious)
      case RollingBack =>
        var c := Session(t.session);
        Set(s, k, t, c, (Value(s, c) - t.count) % MODULUS, Refused)
      case Counting => Set(s, k, t, Metric, (Value(s, Metric) + t.count) % MODULUS, Committed)
      case Committed => s
      case Refused => s
  }

  function Run(cfg: Config, steps: seq<Step>): State
  {
    if |steps| == 0 then State(map[], map[]) else Next(cfg, Run(cfg, steps[..|steps| - 1]), steps[|steps| - 1])
  }

  // ---- What each counter should stand for ----

  /** The task's bytes are on counter `c`: reserved and neither rolled back nor refused. */
  predicate Holds(t: Task, c: Counter)
  {
    match c
    case Session(id) => t.session == id && (t.at.RollingBack? || WaitsForTotal(t) || Paid(t))
    case Total => Paid(t)
    case Metric => t.at.Committed?
  }

  predicate Paid(t: Task) { t.at.Counting? || t.at.Committed? }

  predicate WaitsForTotal(t: Task) { t.at.Reserving? && t.at.stage == AtTotal }

  function Share(t: Task, c: Counter): nat
  {
    if Holds(t, c) then t.count else 0
  }

  function Shares(tasks: map<nat, Task>, c: Counter): map<nat, nat>
  {
    map k | k in tasks :: Share(tasks[k], c)
  }

  ghost function Reserved(tasks: map<nat, Task>, c: Counter): nat
  {
    Sum(Shares(tasks, c))
  }

  function Limit(cfg: Config, c: Counter): u64
  {
    match c
    case Session(_) => cfg.sessionLimit
    case Total => cfg.totalLimit
    case Metric => 0
  }

  /** The counter stands for the reservations made on it, within its limit. */
  ghost predicate Accurate(cfg: Config, s: State, c: Counter)
  {
    && Value(s, c) == Reserved(s.tasks, c) % MODULUS
    && (Limit(cfg, c) != 0 ==> Reserved(s.tasks, c) <= Limit(cfg, c))
  }

  /** An expected value leaves room under a limit. */
  predicate Room(cfg: Config, t: Task)
  {
    t.at.Reserving? && t.at.observed.Some? ==>
      LimitAt(cfg, t.at.stage) != 0 && t.at.observed.value + t.count <= LimitAt(cfg, t.at.stage)
  }

  ghost predicate Invariant(cfg: Config, s: State)
  {
    && (forall c: Counter :: Accurate(cfg, s, c))
    && (forall k :: k in s.tasks ==> Room(cfg, s.tasks[k]))
  }

  lemma SharesSet(tasks: map<nat, Task>, k: nat, t: Task, c: Counter)
    ensures Shares(tasks[k := t], c) == Shares(tasks, c)[k := Share(t, c)]
    ensures Shares(tasks, c).Keys == tasks.Keys && (k in tasks ==> Shares(tasks, c)[k] == Share(tasks[k], c))
  {
    hide Share;
  }

  lemma ReservedArrive(tasks: map<nat, Task>, k: nat, t: Task, c: Counter)
    requires k !in tasks
    ensures Reserved(tasks[k := t], c) == Reserved(tasks, c) + Share(t, c)
  {
    hide Share, Shares, Sum;
    SharesSet(tasks, k, t, c);
    SumInsert(Shares(tasks, c), k, Share(t, c));
  }

  lemma ReservedMove(tasks: map<nat, Task>, k: nat, t: Task, c: Counter)
    requires k in tasks
    ensures Reserved(tasks[k := t], c) == Reserved(tasks, c) - Share(tasks[k], c) + Share(t, c)
    ensures Reserved(tasks, c) >= Share(tasks[k], c)
  {
    hide Share, Shares, Sum;
    SharesSet(tasks, k, t, c);
    SumReplace(Shares(tasks, c), k, Share(t, c));
    SumSplit(Shares(tasks, c), k);
  }

  /** Moving to `at` changes the task's share of counter `c` by `change`, and no other share. */
  ghost predicate Moves(t: Task, at: Point, c: Counter, change: int)
  {
    && Share(t.(at := at), c) == Share(t, c) + change
    && (forall d: Counter :: d != c ==> Share(t.(at := at), d) == Share(t, d))
  }

  lemma GrantMoves(t: Task)
    requires t.at.Reserving?
    ensures Moves(t, Granted(t.at.stage), CounterAt(t, t.at.stage), t.count)
  {
  }

  lemma ObserveMoves(t: Task, limit: u64, current: u64)
    requires t.at.Reserving?
    ensures Moves(t, Observe(limit, t, t.at.stage, current), CounterAt(t, t.at.stage), 0)
  {
  }

  lemma RollBackMoves(t: Task, change: int)
    requires t.at.RollingBack? && change + t.count == 0
    ensures Moves(t, Refused, Session(t.session), change)
  {
  }

  lemma CountMoves(t: Task)
    requires t.at.Counting?
    ensures Moves(t, Committed, Metric, t.count)
  {
  }

  /** A task moves and only counter `c` changes, by the change of the task's share. */
  lemma MoveKeeps(cfg: Config, s: State, k: nat, at: Point, c: Counter, change: int, value: u64)
    requires Invariant(cfg, s) && k in s.tasks && Room(cfg, s.tasks[k].(at := at))
    requires Moves(s.tasks[k], at, c, change)
    requires value == (Value(s, c) + change) % MODULUS
    requires Limit(cfg, c) != 0 && change > 0 ==> value == Value(s, c) + change <= Limit(cfg, c)
    ensures Invariant(cfg, Set(s, k, s.tasks[k], c, value, at))
  {
    hide Share, Reserved, Room;
    var t := s.tasks[k];
    var after := Set(s, k, t, c, value, at);
    forall d: Counter ensures Accurate(cfg, after, d) {
      assert Accurate(cfg, s, d);
      ReservedMove(s.tasks, k, t.(at := at), d);
      if d == c { Shifted(Reserved(s.tasks, c), Value(s, c), change); }
    }
  }

  lemma Shifted(exact: nat, value: nat, change: int)
    requires value == exact % MODULUS && exact + change >= 0
    ensures (value + change) % MODULUS == (exact + change) % MODULUS
  {
  }

  lemma Unchanged(s: State, c: Counter)
    ensures Value(s, c) % MODULUS == Value(s, c)
  {
  }

  lemma ReserveKeeps(cfg: Config, s: State, k: nat, spurious: bool)
    requires Invariant(cfg, s) && k in s.tasks && s.tasks[k].at.Reserving?
    ensures Invariant(cfg, Next(cfg, s, Act(k, spurious)))
  {
    hide Moves, Invariant, Value, Set;
    var t := s.tasks[k];
    var stage, observed := t.at.stage, t.at.observed;
    var c, limit := CounterAt(t, stage), LimitAt(cfg, stage);
    var value := Value(s, c);
    assert Room(cfg, t) by { HasRoom(cfg, s, k); }
    Unchanged(s, c);
    if observed.None? && limit == 0 {
      GrantMoves(t);
      MoveKeeps(cfg, s, k, Granted(stage), c, t.count, (value + t.count) % MODULUS);
    } else if observed.Some? && observed.value == value && !spurious && value + t.count <= U64_MAX {
      GrantMoves(t);
      MoveKeeps(cfg, s, k, Granted(stage), c, t.count, value + t.count);
    } else {
      ObserveMoves(t, limit, value);
      MoveKeeps(cfg, s, k, Observe(limit, t, stage, value), c, 0, value);
    }
  }

  lemma HasRoom(cfg: Config, s: State, k: nat)
    requires Invariant(cfg, s) && k in s.tasks
    ensures Room(cfg, s.tasks[k])
  {
  }

  lemma ArriveKeeps(cfg: Config, s: State, k: nat, t: Task)
    requires Invariant(cfg, s) && k !in s.tasks && t.at == Reserving(AtSession, None)
    ensures Invariant(cfg, s.(tasks := s.tasks[k := t]))
  {
    var after := s.(tasks := s.tasks[k := t]);
    hide Reserved;
    forall c: Counter ensures Accurate(cfg, after, c) {
      assert Accurate(cfg, s, c);
      ReservedArrive(s.tasks, k, t, c);
    }
  }

  lemma NextKeeps(cfg: Config, s: State, step: Step)
    requires Invariant(cfg, s)
    ensures Invariant(cfg, Next(cfg, s, step))
  {
    match step
    case Arrive(k, session, count) =>
      if k !in s.tasks { ArriveKeeps(cfg, s, k, Task(session, count, Reserving(AtSession, None))); }
    case Act(k, spurious) =>
      if k in s.tasks {
        if s.tasks[k].at.Reserving? { ReserveKeeps(cfg, s, k, spurious); } else { SettleKeeps(cfg, s, k, spurious); }
      }
  }

  lemma SettleKeeps(cfg: Config, s: State, k: nat, spurious: bool)
    requires Invariant(cfg, s) && k in s.tasks && !s.tasks[k].at.Reserving?
    ensures Invariant(cfg, Next(cfg, s, Act(k, spurious)))
  {
    hide Moves, Invariant, Value, Set;
    var t := s.tasks[k];
    if t.at.RollingBack? {
      var count: int := t.count;
      RollBackMoves(t, -count);
      var c := Session(t.session);
      MoveKeeps(cfg, s, k, Refused, c, -count, (Value(s, c) - t.count) % MODULUS);
    }
    if t.at.Counting? {
      CountMoves(t);
      MoveKeeps(cfg, s, k, Committed, Metric, t.count, (Value(s, Metric) + t.count) % MODULUS);
    }
  }

  /** In every interleaving every counter stands for its reservations. */
  lemma {:induction false} RunKeeps(cfg: Config, steps: seq<Step>)
    ensures Invariant(cfg, Run(cfg, steps))
  {
    if |steps| == 0 {
      forall c: Counter ensures Accurate(cfg, State(map[], map[]), c) { assert |Shares(map[], c)| == 0; }
    } else {
      RunKeeps(cfg, steps[..|steps| - 1]);
      NextKeeps(cfg, Run(cfg, steps[..|steps| - 1]), steps[|steps| - 1]);
    }
  }

  // ---- What follows for the counters ----

  /** With a limit, a counter is exactly what is reserved on it and never above the limit. */
  lemma WithinLimits(cfg: Config, steps: seq<Step>, c: Counter)
    requires Limit(cfg, c) != 0
    ensures var s := Run(cfg, steps); Value(s, c) == Reserved(s.tasks, c) <= Limit(cfg, c)
  {
    RunKeeps(cfg, steps);
    hide Run;
    assert Accurate(cfg, Run(cfg, steps), c);
  }

  /** A reservation is refused, or turned back, exactly when the counter it looks at has no room
      under the limit at that moment. */
  lemma RefusedOnlyWhenFull(cfg: Config, s: State, k: nat, spurious: bool)
    requires Invariant(cfg, s) && k in s.tasks && s.tasks[k].at.Reserving?
    ensures var t := s.tasks[k]; var stage := t.at.stage; var limit := LimitAt(cfg, stage);
      var at := Next(cfg, s, Act(k, spurious)).tasks[k].at;
      at == Refused || at == RollingBack <==> limit != 0 && Value(s, CounterAt(t, stage)) + t.count > limit
  {
    HasRoom(cfg, s, k);
    hide Invariant, Value;
  }

  predicate Quiescent(s: State)
  {
    forall k :: k in s.tasks ==> Settled(s.tasks[k])
  }

  function SessionIds(tasks: map<nat, Task>): set<nat>
  {
    set k | k in tasks :: tasks[k].session
  }

  ghost function SessionTotals(tasks: map<nat, Task>, ids: set<nat>): map<nat, nat>
  {
    map id | id in ids :: Reserved(tasks, Session(id))
  }

  function Spent(t: Task): nat
  {
    if t.at.Committed? then t.count else 0
  }

  function CommittedShares(tasks: map<nat, Task>): map<nat, nat>
  {
    map k | k in tasks :: Spent(tasks[k])
  }

  lemma ReservedWithout(tasks: map<nat, Task>, k: nat, c: Counter)
    requires k in tasks
    ensures Reserved(tasks, c) == Reserved(tasks - {k}, c) + Share(tasks[k], c)
  {
    hide Share;
    SumSplit(Shares(tasks, c), k);
    assert Shares(tasks, c) - {k} == Shares(tasks - {k}, c);
  }

  lemma NoTasks(tasks: map<nat, Task>, ids: set<nat>)
    requires |tasks| == 0
    ensures Sum(SessionTotals(tasks, ids)) == 0 && Sum(CommittedShares(tasks)) == 0
  {
    forall id | id in ids ensures Reserved(tasks, Session(id)) == 0 { assert |Shares(tasks, Session(id))| == 0; }
    SumZero(SessionTotals(tasks, ids));
    assert |CommittedShares(tasks)| == 0;
  }

  predicate Settled(t: Task) { t.at.Committed? || t.at.Refused? }

  lemma SettledShare(t: Task, id: nat)
    requires Settled(t)
    ensures Share(t, Session(id)) == if id == t.session then Spent(t) else 0
  {
  }

  /** One task more adds what it spent to its own session's total. */
  lemma OneSession(tasks: map<nat, Task>, ids: set<nat>, k: nat)
    requires k in tasks && Settled(tasks[k]) && tasks[k].session in ids
    ensures Sum(SessionTotals(tasks, ids)) == Sum(SessionTotals(tasks - {k}, ids)) + Spent(tasks[k])
  {
    hide Reserved, Share, Spent;
    var rest, own, spent := tasks - {k}, tasks[k].session, Spent(tasks[k]);
    var before, after := SessionTotals(rest, ids), SessionTotals(tasks, ids);
    forall id | id in ids ensures after[id] == before[id] + (if id == own then spent else 0) {
      ReservedWithout(tasks, k, Session(id));
      SettledShare(tasks[k], id);
    }
    assert after == before[own := before[own] + spent];
    SumReplace(before, own, before[own] + spent);
  }

  lemma SpentWithout(tasks: map<nat, Task>, k: nat)
    requires k in tasks
    ensures Sum(CommittedShares(tasks)) == Sum(CommittedShares(tasks - {k})) + Spent(tasks[k])
  {
    hide Spent;
    SumSplit(CommittedShares(tasks), k);
    assert CommittedShares(tasks) - {k} == CommittedShares(tasks - {k});
  }

  /** Summing over sessions or over tasks is the same. */
  lemma {:induction false} SessionsSum(tasks: map<nat, Task>, ids: set<nat>)
    requires forall k :: k in tasks ==> Settled(tasks[k]) && tasks[k].session in ids
    ensures Sum(SessionTotals(tasks, ids)) == Sum(CommittedShares(tasks))
    decreases |tasks|
  {
    hide SessionTotals, CommittedShares, Settled, Spent;
    if |tasks| == 0 {
      NoTasks(tasks, ids);
    } else {
      var k :| k in tasks;
      assert (tasks - {k}).Keys == tasks.Keys - {k};
      SessionsSum(tasks - {k}, ids);
      SpentWithout(tasks, k);
      OneSession(tasks, ids, k);
    }
  }

  lemma {:induction false} SumZero(m: map<nat, nat>)
    requires forall k :: k in m ==> m[k] == 0
    ensures Sum(m) == 0
    decreases |m|
  {
    if |m| > 0 {
      var k :| k in m;
      SumSplit(m, k);
      assert (m - {k}).Keys == m.Keys - {k};
      SumZero(m - {k});
    }
  }

  function SessionValues(s: State): map<nat, nat>
  {
    map id | id in SessionIds(s.tasks) :: Value(s, Session(id))
  }

  /** The server's counter, the metric and the session counters all account for what was relayed. */
  ghost predicate Balanced(s: State)
  {
    Sum(SessionValues(s)) == Value(s, Total) == Value(s, Metric) == Sum(CommittedShares(s.tasks))
  }

  /** Once no request is under way the counters balance if and only if fewer than 2^64 bytes
      were relayed altogether, whatever the limits. */
  lemma BalancedIff(cfg: Config, steps: seq<Step>)
    requires Quiescent(Run(cfg, steps))
    ensures Balanced(Run(cfg, steps)) <==> Sum(CommittedShares(Run(cfg, steps).tasks)) <= U64_MAX
  {
    RunKeeps(cfg, steps);
    hide Run, Value, SessionIds, CommittedShares, Invariant;
    var s := Run(cfg, steps);
    if Sum(CommittedShares(s.tasks)) <= U64_MAX {
      TotalsExact(cfg, s);
      SessionsExact(cfg, s);
      EverySession(s.tasks);
      SessionsSum(s.tasks, SessionIds(s.tasks));
    }
  }

  /** A server limit keeps what was relayed below 2^64, so the counters balance. */
  lemma QuiescentSums(cfg: Config, steps: seq<Step>)
    requires cfg.totalLimit != 0 && Quiescent(Run(cfg, steps))
    ensures Balanced(Run(cfg, steps)) && Value(Run(cfg, steps), Total) <= cfg.totalLimit
  {
    WithinLimits(cfg, steps, Total);
    QuiescentShares(Run(cfg, steps));
    BalancedIff(cfg, steps);
    hide Run, Balanced, Quiescent, Value, Reserved;
  }

  lemma EverySession(tasks: map<nat, Task>)
    ensures forall k :: k in tasks ==> tasks[k].session in SessionIds(tasks)
  {
  }

  /** A counter with fewer reservations than the modulus is exact. */
  lemma ExactAt(cfg: Config, s: State, c: Counter)
    requires Invariant(cfg, s)
    ensures Reserved(s.tasks, c) <= U64_MAX ==> Value(s, c) == Reserved(s.tasks, c)
    ensures Limit(cfg, c) != 0 ==> Reserved(s.tasks, c) <= Limit(cfg, c)
  {
    hide Reserved;
    assert Accurate(cfg, s, c);
  }

  lemma TotalsExact(cfg: Config, s: State)
    requires Invariant(cfg, s) && Quiescent(s) && Sum(CommittedShares(s.tasks)) <= U64_MAX
    ensures Value(s, Total) == Value(s, Metric) == Sum(CommittedShares(s.tasks)) == Reserved(s.tasks, Total)
  {
    hide Invariant, Reserved, CommittedShares, Value, Sum, Quiescent, Settled;
    QuiescentShares(s);
    ExactAt(cfg, s, Metric);
    ExactAt(cfg, s, Total);
  }

  lemma SessionsExact(cfg: Config, s: State)
    requires Invariant(cfg, s) && Quiescent(s) && Sum(CommittedShares(s.tasks)) <= U64_MAX
    ensures SessionValues(s) == SessionTotals(s.tasks, SessionIds(s.tasks))
  {
    hide Invariant, Reserved, SessionIds, Value, Quiescent, Sum;
    QuiescentShares(s);
    forall id | id in SessionIds(s.tasks) ensures Value(s, Session(id)) == Reserved(s.tasks, Session(id)) {
      ExactAt(cfg, s, Session(id));
      PartOfTotal(s, id);
    }
  }

  lemma QuiescentShares(s: State)
    requires Quiescent(s)
    ensures Reserved(s.tasks, Total) == Reserved(s.tasks, Metric) == Sum(CommittedShares(s.tasks))
  {
    assert Shares(s.tasks, Total) == CommittedShares(s.tasks);
    assert Shares(s.tasks, Metric) == CommittedShares(s.tasks);
  }

  lemma PartOfTotal(s: State, id: nat)
    requires Quiescent(s)
    ensures Reserved(s.tasks, Session(id)) <= Reserved(s.tasks, Total)
  {
    SumMonotone(Shares(s.tasks, Session(id)), Shares(s.tasks, Total));
  }

  // ---- Without a server limit ----

  function Follow(cfg: Config, s: State, steps: seq<Step>): State
  {
    if |steps| == 0 then s else Next(cfg, Follow(cfg, s, steps[..|steps| - 1]), steps[|steps| - 1])
  }

  lemma {:induction false} RunFollows(cfg: Config, steps: seq<Step>, more: seq<Step>)
    ensures Run(cfg, steps + more) == Follow(cfg, Run(cfg, steps), more)
    decreases |more|
  {
    if |more| == 0 {
      assert steps + more == steps;
    } else {
      var init := more[..|more| - 1];
      RunFollows(cfg, steps, init);
      assert (steps + more)[..|steps + more| - 1] == steps + init;
    }
  }

  /** One request on a session of its own that nothing interferes with: with a session limit
      the counter is first looked at. */
  function Alone(cfg: Config, k: nat, count: u64): seq<Step>
  {
    [Arrive(k, k, count)] + (if cfg.sessionLimit == 0 then [] else [Act(k, false)]) +
        [Act(k, false), Act(k, false), Act(k, false)]
  }

  predicate Grants(cfg: Config, count: u64)
  {
    cfg.totalLimit == 0 && (cfg.sessionLimit == 0 || count <= cfg.sessionLimit)
  }

  /** The first request of a session, where there is no server limit, is committed. */
  lemma AloneCommits(cfg: Config, s: State, k: nat, count: u64)
    requires Grants(cfg, count) && k !in s.tasks && Value(s, Session(k)) == 0
    ensures var s' := Follow(cfg, s, Alone(cfg, k, count));
      && s'.tasks == s.tasks[k := Task(k, count, Committed)]
      && forall j :: j != k ==> Value(s', Session(j)) == Value(s, Session(j))
  {
    hide Next, Value, Follow, Alone, Grants;
    var a := ArriveStep(cfg, s, k, count);
    var b := SessionSteps(cfg, a, k, count);
    NoServerLimit(cfg, count);
    TotalSteps(cfg, b, k, count);
    var start, act := [Arrive(k, k, count)], Act(k, false);
    FollowNext(cfg, s, [], Arrive(k, k, count));
    FollowNext(cfg, s, start, act);
    FollowNext(cfg, s, start + [act], act);
    FollowNext(cfg, s, start + [act] + [act], act);
    FollowNext(cfg, s, start + [act] + [act] + [act], act);
    assert [] + start == start;
    AloneSteps(cfg, k, count);
  }

  lemma NoServerLimit(cfg: Config, count: u64)
    requires Grants(cfg, count)
    ensures cfg.totalLimit == 0
  {
  }

  lemma AloneSteps(cfg: Config, k: nat, count: u64)
    ensures var start, act := [Arrive(k, k, count)], Act(k, false);
      Alone(cfg, k, count) == if cfg.sessionLimit == 0 then start + [act] + [act] + [act]
          else start + [act] + [act] + [act] + [act]
  {
  }

  lemma FollowNext(cfg: Config, s: State, steps: seq<Step>, step: Step)
    ensures Follow(cfg, s, steps + [step]) == Next(cfg, Follow(cfg, s, steps), step)
    ensures Follow(cfg, s, []) == s
  {
    assert (steps + [step])[..|steps|] == steps;
  }

  lemma ArriveStep(cfg: Config, s: State, k: nat, count: u64) returns (a: State)
    requires k !in s.tasks
    ensures a == Next(cfg, s, Arrive(k, k, count))
    ensures a == s.(tasks := s.tasks[k := Task(k, count, Reserving(AtSession, None))]) && forall c ::
      Value(a, c) == Value(s, c)
  {
    a := Next(cfg, s, Arrive(k, k, count));
  }

  lemma SessionSteps(cfg: Config, a: State, k: nat, count: u64) returns (b: State)
    requires Grants(cfg, count) && k in a.tasks
    requires a.tasks[k] == Task(k, count, Reserving(AtSession, None)) && Value(a, Session(k)) == 0
    ensures b == (var once := Next(cfg, a, Act(k, false)); if cfg.sessionLimit == 0 then once else Next(cfg, once,
        Act(k, false)))
    ensures b.tasks == a.tasks[k := Task(k, count, Reserving(AtTotal, None))]
    ensures forall j :: j != k ==> Value(b, Session(j)) == Value(a, Session(j))
  {
    var once := Next(cfg, a, Act(k, false));
    b := if cfg.sessionLimit == 0 then once else Next(cfg, once, Act(k, false));
    if cfg.sessionLimit != 0 {
      assert once == State(a.counters[Session(k) := 0], a.tasks[k := Task(k, count, Reserving(AtSession, Some(0)))]);
    }
  }

  lemma TotalSteps(cfg: Config, b: State, k: nat, count: u64)
    requires cfg.totalLimit == 0 && k in b.tasks && b.tasks[k] == Task(k, count, Reserving(AtTotal, None))
    ensures var s' := Next(cfg, Next(cfg, b, Act(k, false)), Act(k, false));
      && s'.tasks == b.tasks[k := Task(k, count, Committed)]
      && forall j :: Value(s', Session(j)) == Value(b, Session(j))
  {
    var c := Next(cfg, b, Act(k, false));
    assert c.tasks == b.tasks[k := Task(k, count, Counting)];
    assert Next(cfg, c, Act(k, false)).tasks == b.tasks[k := Task(k, count, Committed)];
  }

  /** `n` requests one after the other, each of `count` bytes and on a session of its own. */
  function Requests(cfg: Config, n: nat, count: u64): seq<Step>
  {
    if n == 0 then [] else Requests(cfg, n - 1, count) + Alone(cfg, n - 1, count)
  }

  lemma {:induction false} RequestsCommit(cfg: Config, n: nat, count: u64)
    requires Grants(cfg, count)
    ensures var s := Run(cfg, Requests(cfg, n, count));
      && (forall k :: k in s.tasks ==> k < n && s.tasks[k] == Task(k, count, Committed))
      && (forall k: nat :: k >= n ==> Value(s, Session(k)) == 0)
      && Reserved(s.tasks, Total) == n * count
  {
    hide Run, Alone, Follow, Value, Reserved;
    if n == 0 {
      NothingYet(cfg);
    } else {
      RequestsCommit(cfg, n - 1, count);
      RunFollows(cfg, Requests(cfg, n - 1, count), Alone(cfg, n - 1, count));
      var s := Run(cfg, Requests(cfg, n - 1, count));
      AloneCommits(cfg, s, n - 1, count);
      ReservedArrive(s.tasks, n - 1, Task(n - 1, count, Committed), Total);
      OneMore(n, count);
    }
  }

  lemma NothingYet(cfg: Config)
    ensures var s := Run(cfg, []);
      s.tasks == map[] && Reserved(s.tasks, Total) == 0 && forall k :: Value(s, Session(k)) == 0
  {
    assert |Shares(map[], Total)| == 0;
  }

  lemma OneMore(n: nat, count: nat)
    requires n > 0
    ensures (n - 1) * count + count == n * count
  {
  }

  /** Without a server limit, requests of any one size that the session limit admits, all of
      them committed, unbalance the counters once they pass 2^64 bytes together. */
  lemma UnlimitedUnbalances(cfg: Config, n: nat, count: u64)
    requires Grants(cfg, count) && n * count > U64_MAX
    ensures var s := Run(cfg, Requests(cfg, n, count)); Quiescent(s) && !Balanced(s)
  {
    RequestsCommit(cfg, n, count);
    var s := Run(cfg, Requests(cfg, n, count));
    assert Quiescent(s);
    QuiescentShares(s);
    BalancedIff(cfg, Requests(cfg, n, count));
    hide Run, Balanced, Quiescent, Value, Reserved;
  }

  /** A configuration keeps its counters balanced in every run if and only if it sets a server limit. */
  lemma LimitDecides(cfg: Config)
    ensures (forall steps: seq<Step> :: Quiescent(Run(cfg, steps)) ==> Balanced(Run(cfg, steps))) <==>
        cfg.totalLimit != 0
  {
    hide Run, Balanced, Quiescent;
    if cfg.totalLimit != 0 {
      forall steps: seq<Step> | Quiescent(Run(cfg, steps))
        ensures Balanced(Run(cfg, steps))
      {
        QuiescentSums(cfg, steps);
      }
    } else {
      UnlimitedUnbalances(cfg, MODULUS, 1);
    }
  }
}

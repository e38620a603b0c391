/** The scan pipeline: input, workers, output and monitor, joined by bounded channels and wait groups. */
module Pipeline {

  type Target = nat
  type Name = nat

  datatype Scanner = Scanner(name: Name, trigger: nat)

  datatype Config = Config(
    workers: nat,
    connectionsPerHost: nat,
    continueOnError: bool,
    breakOnSuccess: bool,
    scanners: seq<Scanner>,
    tags: Target -> nat,
    targets: seq<Target>)

  /**
   * Scanning(t, run, k): about to try scanner k. Reporting: about to send the status of scanner k. Holding: has a
   * result to put out.
   */
  datatype Worker =
    | Ranging
    | Scanning(t: Target, run: nat, k: nat)
    | Reporting(t: Target, run: nat, k: nat, failed: bool, stop: bool)
    | Holding(t: Target, run: nat)
    | Retired

  datatype Main = Feeding(left: seq<Target>) | AwaitWorkers | AwaitOutput | AwaitMonitor | Finished

  datatype Status = Status(name: Name, failed: bool)

  datatype Channel<T> = Channel(items: seq<T>, closed: bool)

  datatype State = State(
    main: Main,
    process: Channel<Target>,
    output: Channel<Target>,
    status: Channel<Status>,
    workers: seq<Worker>,
    writing: bool,
    monitoring: bool,
    written: seq<Target>,
    /** The monitor's counters per scanner name. */
    successes: multiset<Name>,
    failures: multiset<Name>,
    /** How often RunScanner was called, per name. */
    calls: multiset<Name>)

  function QueueSize(c: Config): nat {
    4 * c.workers
  }

  const STATUS_SIZE: nat := 1

  function Start(c: Config): State {
    State(Feeding(c.targets), Channel([], false), Channel([], false), Channel([], false),
          seq(c.workers, _ => Ranging), true, true, [], multiset{}, multiset{}, multiset{})
  }

  // ----- steps -----

  datatype MainStep = Feed | CloseInput | CloseOutput | StopMonitor | End

  datatype WorkerStep = Receive | Retire | Skip | Scan(failed: bool, success: bool) | Report | Grab | Put

  datatype DrainStep = Write | EndOutput | Count | EndMonitor

  /** The atomic steps: of the main goroutine, of a worker, of the output writer or the monitor. */
  datatype Move = OfMain(a: MainStep) | OfWorker(i: nat, b: WorkerStep) | OfDrain(d: DrainStep)

  predicate Triggered(c: Config, w: Worker) {
    w.Scanning? && w.k < |c.scanners| && c.tags(w.t) == c.scanners[w.k].trigger
  }

  predicate AllRetired(s: State) {
    forall i :: 0 <= i < |s.workers| ==> s.workers[i] == Retired
  }

  predicate MainCan(c: Config, s: State, a: MainStep) {
    match a
    case Feed => s.main.Feeding? && s.main.left != [] && |s.process.items| < QueueSize(c)
    case CloseInput => s.main.Feeding? && s.main.left == []
    case CloseOutput => s.main.AwaitWorkers? && AllRetired(s)
    case StopMonitor => s.main.AwaitOutput? && !s.writing
    case End => s.main.AwaitMonitor? && !s.monitoring
  }

  predicate WorkerCan(c: Config, s: State, w: Worker, b: WorkerStep) {
    match b
    case Receive => w.Ranging? && s.process.items != []
    case Retire => w.Ranging? && s.process.items == [] && s.process.closed
    case Skip => w.Scanning? && w.k < |c.scanners| && !Triggered(c, w)
    case Scan(_, _) => Triggered(c, w)
    case Report => w.Reporting? && w.k < |c.scanners| && |s.status.items| < STATUS_SIZE
    case Grab => w.Scanning? && w.k >= |c.scanners|
    case Put => w.Holding? && |s.output.items| < QueueSize(c)
  }

  predicate DrainCan(s: State, d: DrainStep) {
    match d
    case Write => s.writing && s.output.items != []
    case EndOutput => s.writing && s.output.items == [] && s.output.closed
    case Count => s.monitoring && s.status.items != []
    case EndMonitor => s.monitoring && s.status.items == [] && s.status.closed
  }

  /**
   * When a goroutine can take its next step; a send waits for room, a receive for an item or for the channel to close.
   */
  predicate Enabled(c: Config, s: State, m: Move) {
    match m
    case OfMain(a) => MainCan(c, s, a)
    case OfWorker(i, b) => i < |s.workers| && WorkerCan(c, s, s.workers[i], b)
    case OfDrain(d) => DrainCan(s, d)
  }

  /** A worker at the start of a run, or back at the queue when the runs are over. */
  function NextRun(c: Config, t: Target, run: nat): Worker {
    if run < c.connectionsPerHost then Scanning(t, run, 0) else Ranging
  }

  function Send<T>(ch: Channel<T>, x: T): Channel<T> {
    ch.(items := ch.items + [x])
  }

  function Rest<T>(ch: Channel<T>): Channel<T>
    requires ch.items != []
  {
    ch.(items := ch.items[1..])
  }

  function MainDoes(c: Config, s: State, a: MainStep): State
    requires MainCan(c, s, a)
  {
    match a
    case Feed => s.(main := Feeding(s.main.left[1..]), process := Send(s.process, s.main.left[0]))
    case CloseInput => s.(main := AwaitWorkers, process := s.process.(closed := true))
    case CloseOutput => s.(main := AwaitOutput, output := s.output.(closed := true))
    case StopMonitor => s.(main := AwaitMonitor, status := s.status.(closed := true))
    case End => s.(main := Finished)
  }

  /** What a worker's step makes of the worker. */
  function Next(c: Config, s: State, w: Worker, b: WorkerStep): Worker
    requires WorkerCan(c, s, w, b)
  {
    match b
    case Receive => NextRun(c, s.process.items[0], 0)
    case Retire => Retired
    case Skip => Scanning(w.t, w.run, w.k + 1)
    case Scan(failed, success) =>
      Reporting(w.t, w.run, w.k, failed, (failed && !c.continueOnError) || (success && c.breakOnSuccess))
    case Report => if w.stop then Holding(w.t, w.run) else Scanning(w.t, w.run, w.k + 1)
    case Grab => Holding(w.t, w.run)
    case Put => NextRun(c, w.t, w.run + 1)
  }

  /** What a worker's step makes of the channels and of the count of calls. */
  function Effect(c: Config, s: State, w: Worker, b: WorkerStep): State
    requires WorkerCan(c, s, w, b)
  {
    match b
    case Receive => s.(process := Rest(s.process))
    case Scan(_, _) => s.(calls := s.calls + multiset{c.scanners[w.k].name})
    case Report => s.(status := Send(s.status, Status(c.scanners[w.k].name, w.failed)))
    case Put => s.(output := Send(s.output, w.t))
    case _ => s
  }

  function WorkerDoes(c: Config, s: State, i: nat, b: WorkerStep): State
    requires i < |s.workers| && WorkerCan(c, s, s.workers[i], b)
  {
    Effect(c, s, s.workers[i], b).(workers := s.workers[i := Next(c, s, s.workers[i], b)])
  }

  function DrainDoes(s: State, d: DrainStep): State
    requires DrainCan(s, d)
  {
    match d
    case Write => s.(written := s.written + [s.output.items[0]], output := Rest(s.output))
    case EndOutput => s.(writing := false)
    case Count =>
      var x := s.status.items[0];
      if x.failed then s.(failures := s.failures + multiset{x.name}, status := Rest(s.status))
      else s.(successes := s.successes + multiset{x.name}, status := Rest(s.status))
    case EndMonitor => s.(monitoring := false)
  }

  function Apply(c: Config, s: State, m: Move): State
    requires Enabled(c, s, m)
  {
    match m
    case OfMain(a) => MainDoes(c, s, a)
    case OfWorker(i, b) => WorkerDoes(c, s, i, b)
    case OfDrain(d) => DrainDoes(s, d)
  }

  /** The channel a step sends on, if any, must not be closed: Go panics otherwise. */
  predicate SendsOnOpen(s: State, m: Move) {
    && (m == OfMain(Feed) ==> !s.process.closed)
    && (m.OfWorker? && m.b.Report? ==> !s.status.closed)
    && (m.OfWorker? && m.b.Put? ==> !s.output.closed)
  }

  /** Closing a closed channel panics too. */
  predicate ClosesOpen(s: State, m: Move) {
    && (m == OfMain(CloseInput) ==> !s.process.closed)
    && (m == OfMain(CloseOutput) ==> !s.output.closed)
    && (m == OfMain(StopMonitor) ==> !s.status.closed)
  }

  // ----- the invariant -----

  predicate WorkerOK(c: Config, s: State, w: Worker) {
    match w
    case Ranging => true
    case Scanning(_, run, k) => run < c.connectionsPerHost && k <= |c.scanners|
    case Reporting(_, run, k, _, _) => run < c.connectionsPerHost && k < |c.scanners|
    case Holding(_, run) => run < c.connectionsPerHost
    case Retired => s.process.closed && s.process.items == []
  }

  /** Each goroutine's phase and the state of the channels it waits for. */
  predicate Phases(c: Config, s: State) {
    && |s.workers| == c.workers
    && (forall i :: 0 <= i < |s.workers| ==> WorkerOK(c, s, s.workers[i]))
    && (s.process.closed <==> !s.main.Feeding?)
    && (s.output.closed <==> !s.main.Feeding? && !s.main.AwaitWorkers?)
    && (s.status.closed <==> s.main.AwaitMonitor? || s.main.Finished?)
    && (s.output.closed ==> AllRetired(s))
    && (!s.writing ==> s.output.closed && s.output.items == [])
    && (s.status.closed ==> !s.writing)
    && (!s.monitoring ==> s.status.closed && s.status.items == [])
    && (s.main.Finished? ==> !s.monitoring)
  }

  lemma StartPhases(c: Config)
    ensures Phases(c, Start(c))
  {
  }

  lemma StepPhases(c: Config, s: State, m: Move)
    requires Phases(c, s) && Enabled(c, s, m)
    ensures Phases(c, Apply(c, s, m))
  {
    match m
    case OfMain(a) => MainPhases(c, s, a);
    case OfWorker(i, b) => WorkerPhases(c, s, i, b);
    case OfDrain(d) => DrainPhases(c, s, d);
  }

  lemma DrainPhases(c: Config, s: State, d: DrainStep)
    requires Phases(c, s) && DrainCan(s, d)
    ensures Phases(c, DrainDoes(s, d))
  {
    var s' := DrainDoes(s, d);
    forall i | 0 <= i < |s'.workers| ensures WorkerOK(c, s', s'.workers[i]) {
      assert WorkerOK(c, s, s.workers[i]);
    }
  }

  lemma MainPhases(c: Config, s: State, a: MainStep)
    requires Phases(c, s) && MainCan(c, s, a)
    ensures Phases(c, MainDoes(c, s, a))
  {
    var s' := MainDoes(c, s, a);
    forall i | 0 <= i < |s'.workers| ensures WorkerOK(c, s', s'.workers[i]) {
      assert s'.workers[i] == s.workers[i] && WorkerOK(c, s, s.workers[i]);
    }
  }

  lemma WorkerPhases(c: Config, s: State, i: nat, b: WorkerStep)
    requires Phases(c, s) && i < |s.workers| && WorkerCan(c, s, s.workers[i], b)
    ensures Phases(c, WorkerDoes(c, s, i, b))
  {
    var s' := WorkerDoes(c, s, i, b);
    assert WorkerOK(c, s, s.workers[i]);
    assert WorkerOK(c, s', s'.workers[i]);
    forall k | 0 <= k < |s'.workers| ensures WorkerOK(c, s', s'.workers[k]) {
      assert k != i ==> s'.workers[k] == s.workers[k] && WorkerOK(c, s, s.workers[k]);
    }
  }

  /** No step of any run sends on a closed channel or closes one twice. */
  lemma NoPanic(c: Config, s: State, m: Move)
    requires Phases(c, s) && Enabled(c, s, m)
    ensures SendsOnOpen(s, m) && ClosesOpen(s, m)
  {
  }

  /** There is somebody to take what is still to be fed. */
  predicate Staffed(c: Config, s: State) {
    c.workers > 0 || Waiting(s) == []
  }

  /** Unless it has finished, the pipeline can take a step: there is no deadlock. */
  lemma NoDeadlock(c: Config, s: State) returns (m: Move)
    requires Phases(c, s) && Staffed(c, s) && !s.main.Finished?
    ensures Enabled(c, s, m)
  {
    if s.monitoring && s.status.items != [] {
      m := OfDrain(Count);
    } else if s.writing && s.output.items != [] {
      m := OfDrain(Write);
    } else if i :| 0 <= i < |s.workers| && !s.workers[i].Ranging? && !s.workers[i].Retired? {
      var b := BusyStep(c, s, i);
      m := OfWorker(i, b);
    } else if s.main.Feeding? && s.main.left == [] {
      m := OfMain(CloseInput);
    } else if s.main.Feeding? && |s.process.items| == 0 {
      m := OfMain(Feed);
    } else if i :| 0 <= i < |s.workers| && s.workers[i].Ranging? {
      m := OfWorker(i, if s.process.items != [] then Receive else Retire);
    } else {
      assert AllRetired(s);
      assert c.workers > 0 ==> s.workers[0] == Retired;
      m := match s.main
           case AwaitWorkers => OfMain(CloseOutput)
           case AwaitOutput => if s.writing then OfDrain(EndOutput) else OfMain(StopMonitor)
           case _ => if s.monitoring then OfDrain(EndMonitor) else OfMain(End);
    }
  }

  /** With the status and output channels drained, a worker at work is never held up. */
  lemma BusyStep(c: Config, s: State, i: nat) returns (b: WorkerStep)
    requires Phases(c, s) && i < |s.workers| && !s.workers[i].Ranging? && !s.workers[i].Retired?
    requires s.monitoring ==> s.status.items == []
    requires s.writing ==> s.output.items == []
    ensures WorkerCan(c, s, s.workers[i], b)
  {
    var w := s.workers[i];
    assert WorkerOK(c, s, w);
    match w
    case Scanning(_, _, k) =>
      b := if k >= |c.scanners| then Grab else if Triggered(c, w) then Scan(false, false) else Skip;
    case Reporting(_, _, _, _, _) => b := Report;
    case Holding(_, _) => b := Put;
  }

  // ----- what is conserved -----

  /** k for each occurrence of t. */
  function Times(k: nat, xs: seq<Target>, t: Target): nat {
    if xs == [] then 0 else (if xs[0] == t then k else 0) + Times(k, xs[1..], t)
  }

  lemma {:induction false} TimesIsProduct(k: nat, xs: seq<Target>, t: Target)
    ensures Times(k, xs, t) == k * multiset(xs)[t]
  {
    if xs != [] {
      TimesIsProduct(k, xs[1..], t);
      CountFirst(xs, t);
      Distribute(k, multiset(xs[1..])[t]);
    }
  }

  lemma CountFirst(xs: seq<Target>, t: Target)
    requires xs != []
    ensures multiset(xs)[t] == multiset(xs[1..])[t] + if xs[0] == t then 1 else 0
  {
    assert xs == [xs[0]] + xs[1..];
  }

  lemma Distribute(k: nat, m: nat)
    ensures k * (m + 1) == k * m + k
  {
  }

  /** How many more results for t a worker will put out. */
  function Owed(c: Config, w: Worker, t: Target): nat {
    if (w.Scanning? || w.Reporting? || w.Holding?) && w.t == t && w.run < c.connectionsPerHost
    then c.connectionsPerHost - w.run
    else 0
  }

  function OwedAll(c: Config, ws: seq<Worker>, t: Target): nat {
    if ws == [] then 0 else OwedAll(c, ws[..|ws| - 1], t) + Owed(c, ws[|ws| - 1], t)
  }

  /** Whether a worker is about to report on a scanner of the given name. */
  function Due(c: Config, w: Worker, n: Name): nat {
    if w.Reporting? && w.k < |c.scanners| && c.scanners[w.k].name == n then 1 else 0
  }

  function DueAll(c: Config, ws: seq<Worker>, n: Name): nat {
    if ws == [] then 0 else DueAll(c, ws[..|ws| - 1], n) + Due(c, ws[|ws| - 1], n)
  }

  function InChannel(xs: seq<Status>, n: Name): nat {
    if xs == [] then 0 else (if xs[0].name == n then 1 else 0) + InChannel(xs[1..], n)
  }

  lemma {:induction false} OwedSet(c: Config, ws: seq<Worker>, i: nat, w: Worker, t: Target)
    requires i < |ws|
    ensures OwedAll(c, ws[i := w], t) == OwedAll(c, ws, t) + Owed(c, w, t) - Owed(c, ws[i], t)
  {
    var n := |ws| - 1;
    if i < n {
      OwedSet(c, ws[..n], i, w, t);
      assert ws[i := w][..n] == ws[..n][i := w];
    } else {
      assert ws[i := w][..n] == ws[..n];
    }
  }

  lemma {:induction false} DueSet(c: Config, ws: seq<Worker>, i: nat, w: Worker, n: Name)
    requires i < |ws|
    ensures DueAll(c, ws[i := w], n) == DueAll(c, ws, n) + Due(c, w, n) - Due(c, ws[i], n)
  {
    var k := |ws| - 1;
    if i < k {
      DueSet(c, ws[..k], i, w, n);
      assert ws[i := w][..k] == ws[..k][i := w];
    } else {
      assert ws[i := w][..k] == ws[..k];
    }
  }

  lemma {:induction false} InChannelSend(xs: seq<Status>, x: Status, n: Name)
    ensures InChannel(xs + [x], n) == InChannel(xs, n) + if x.name == n then 1 else 0
  {
    if xs == [] {
      assert xs + [x] == [x] && [x][1..] == [];
    } else {
      assert (xs + [x])[1..] == xs[1..] + [x];
      InChannelSend(xs[1..], x, n);
    }
  }

  lemma {:induction false} NothingOwed(c: Config, ws: seq<Worker>, t: Target, n: Name)
    requires forall i :: 0 <= i < |ws| ==> ws[i].Ranging? || ws[i].Retired?
    ensures OwedAll(c, ws, t) == 0 && DueAll(c, ws, n) == 0
  {
    if ws != [] {
      NothingOwed(c, ws[..|ws| - 1], t, n);
    }
  }

  function Waiting(s: State): seq<Target> {
    if s.main.Feeding? then s.main.left else []
  }

  /** Results for a target: written, in the output queue, owed by workers, or due for targets not yet picked up. */
  predicate Conserved(c: Config, s: State, t: Target) {
    Times(1, s.written, t) + Times(1, s.output.items, t) + OwedAll(c, s.workers, t)
      + Times(c.connectionsPerHost, s.process.items, t) + Times(c.connectionsPerHost, Waiting(s), t)
    == Times(c.connectionsPerHost, c.targets, t)
  }

  /** Calls of scanners with a name: counted, in the status channel, or about to be reported. */
  predicate Tallied(c: Config, s: State, n: Name) {
    s.successes[n] + s.failures[n] + InChannel(s.status.items, n) + DueAll(c, s.workers, n) == s.calls[n]
  }

  lemma StartConserved(c: Config, t: Target, n: Name)
    ensures Conserved(c, Start(c), t) && Tallied(c, Start(c), n)
  {
    NothingOwed(c, Start(c).workers, t, n);
  }

  lemma {:induction false} TimesSend(k: nat, xs: seq<Target>, x: Target, t: Target)
    ensures Times(k, xs + [x], t) == Times(k, xs, t) + if x == t then k else 0
  {
    if xs == [] {
      assert xs + [x] == [x] && [x][1..] == [];
    } else {
      assert (xs + [x])[1..] == xs[1..] + [x];
      TimesSend(k, xs[1..], x, t);
    }
  }

  lemma StepConserved(c: Config, s: State, m: Move, t: Target)
    requires Phases(c, s) && Enabled(c, s, m) && Conserved(c, s, t)
    ensures Conserved(c, Apply(c, s, m), t)
  {
    match m
    case OfMain(a) => MainConserved(c, s, a, t);
    case OfWorker(i, b) => WorkerConserved(c, s, i, b, t);
    case OfDrain(d) => DrainConserved(c, s, d, t);
  }

  lemma MainConserved(c: Config, s: State, a: MainStep, t: Target)
    requires MainCan(c, s, a) && Conserved(c, s, t)
    ensures Conserved(c, MainDoes(c, s, a), t)
  {
    if a.Feed? {
      TimesSend(c.connectionsPerHost, s.process.items, s.main.left[0], t);
    }
  }

  lemma DrainConserved(c: Config, s: State, d: DrainStep, t: Target)
    requires DrainCan(s, d) && Conserved(c, s, t)
    ensures Conserved(c, DrainDoes(s, d), t)
  {
    if d.Write? {
      TimesSend(1, s.written, s.output.items[0], t);
    }
  }

  lemma WorkerConserved(c: Config, s: State, i: nat, b: WorkerStep, t: Target)
    requires Phases(c, s) && i < |s.workers| && WorkerCan(c, s, s.workers[i], b) && Conserved(c, s, t)
    ensures Conserved(c, WorkerDoes(c, s, i, b), t)
  {
    if b.Put? {
      PutConserved(c, s, i, t);
    } else {
      OwedSet(c, s.workers, i, Next(c, s, s.workers[i], b), t);
    }
  }

  lemma PutConserved(c: Config, s: State, i: nat, t: Target)
    requires Phases(c, s) && i < |s.workers| && WorkerCan(c, s, s.workers[i], Put) && Conserved(c, s, t)
    ensures Conserved(c, WorkerDoes(c, s, i, Put), t)
  {
    var w := s.workers[i];
    assert WorkerOK(c, s, w);
    OwedSet(c, s.workers, i, Next(c, s, w, Put), t);
    TimesSend(1, s.output.items, w.t, t);
  }

  lemma StepTallied(c: Config, s: State, m: Move, n: Name)
    requires Phases(c, s) && Enabled(c, s, m) && Tallied(c, s, n)
    ensures Tallied(c, Apply(c, s, m), n)
  {
    match m
    case OfMain(a) =>
    case OfWorker(i, b) => WorkerTallied(c, s, i, b, n);
    case OfDrain(d) => DrainTallied(c, s, d, n);
  }

  lemma WorkerTallied(c: Config, s: State, i: nat, b: WorkerStep, n: Name)
    requires Phases(c, s) && i < |s.workers| && WorkerCan(c, s, s.workers[i], b) && Tallied(c, s, n)
    ensures Tallied(c, WorkerDoes(c, s, i, b), n)
  {
    var w := s.workers[i];
    DueSet(c, s.workers, i, Next(c, s, w, b), n);
    if b.Report? {
      InChannelSend(s.status.items, Status(c.scanners[w.k].name, w.failed), n);
    }
  }

  lemma DrainTallied(c: Config, s: State, d: DrainStep, n: Name)
    requires DrainCan(s, d) && Tallied(c, s, n)
    ensures Tallied(c, DrainDoes(s, d), n)
  {
  }

  // ----- why it ends -----

  /** Steps per scanner: scan, report, count. */
  function RunCost(c: Config): nat {
    3 * |c.scanners| + 3
  }

  function Runs(c: Config, k: nat): nat {
    if k == 0 then 0 else RunCost(c) + Runs(c, k - 1)
  }

  /** Runs left after the one in hand. */
  function RunsAfter(c: Config, run: nat): nat {
    if run < c.connectionsPerHost then Runs(c, c.connectionsPerHost - run - 1) else 0
  }

  function WorkerCost(c: Config, w: Worker): nat {
    match w
    case Ranging => 1
    case Scanning(_, run, k) => RunsAfter(c, run) + (if k < |c.scanners| then 3 * (|c.scanners| - k) else 0) + 4
    case Reporting(_, run, k, _, _) => RunsAfter(c, run) + (if k < |c.scanners| then 3 * (|c.scanners| - k) else 0) + 3
    case Holding(_, run) => RunsAfter(c, run) + 3
    case Retired => 0
  }

  function WorkersCost(c: Config, ws: seq<Worker>): nat {
    if ws == [] then 0 else WorkersCost(c, ws[..|ws| - 1]) + WorkerCost(c, ws[|ws| - 1])
  }

  lemma {:induction false} CostSet(c: Config, ws: seq<Worker>, i: nat, w: Worker)
    requires i < |ws|
    ensures WorkersCost(c, ws[i := w]) == WorkersCost(c, ws) + WorkerCost(c, w) - WorkerCost(c, ws[i])
  {
    var n := |ws| - 1;
    if i < n {
      CostSet(c, ws[..n], i, w);
      assert ws[i := w][..n] == ws[..n][i := w];
    } else {
      assert ws[i := w][..n] == ws[..n];
    }
  }

  function TargetCost(c: Config, extra: nat, n: nat): nat {
    if n == 0 then 0 else Runs(c, c.connectionsPerHost) + extra + TargetCost(c, extra, n - 1)
  }

  function MainCost(m: Main): nat {
    match m
    case Feeding(_) => 4
    case AwaitWorkers => 3
    case AwaitOutput => 2
    case AwaitMonitor => 1
    case Finished => 0
  }

  /** An upper bound on the steps that are left, whatever the schedule. */
  function Remaining(c: Config, s: State): nat {
    MainCost(s.main) + TargetCost(c, 2, |Waiting(s)|) + TargetCost(c, 1, |s.process.items|) + WorkersCost(c, s.workers)
    + |s.output.items| + |s.status.items| + (if s.writing then 1 else 0) + (if s.monitoring then 1 else 0)
  }

  /** What a worker's step costs it, against what it takes from a channel or leaves in one. */
  lemma NextCheaper(c: Config, s: State, w: Worker, b: WorkerStep)
    requires WorkerCan(c, s, w, b) && WorkerOK(c, s, w)
    ensures WorkerCost(c, Next(c, s, w, b)) + (if b.Report? || b.Put? then 1 else 0)
          < WorkerCost(c, w) + if b.Receive? then Runs(c, c.connectionsPerHost) + 1 else 0
  {
    if b.Put? && w.run + 1 < c.connectionsPerHost {
      assert RunsAfter(c, w.run) == RunCost(c) + RunsAfter(c, w.run + 1);
    }
  }

  lemma WorkerStepsDown(c: Config, s: State, i: nat, b: WorkerStep)
    requires Phases(c, s) && i < |s.workers| && WorkerCan(c, s, s.workers[i], b)
    ensures Remaining(c, WorkerDoes(c, s, i, b)) < Remaining(c, s)
  {
    var w := s.workers[i];
    assert WorkerOK(c, s, w);
    NextCheaper(c, s, w, b);
    CostSet(c, s.workers, i, Next(c, s, w, b));
    var s' := Effect(c, s, w, b);
    assert s'.main == s.main && s'.writing == s.writing && s'.monitoring == s.monitoring;
  }

  lemma StepsDown(c: Config, s: State, m: Move)
    requires Phases(c, s) && Enabled(c, s, m)
    ensures Remaining(c, Apply(c, s, m)) < Remaining(c, s)
  {
    match m
    case OfMain(a) => MainStepsDown(c, s, a);
    case OfWorker(i, b) => WorkerStepsDown(c, s, i, b);
    case OfDrain(d) => DrainStepsDown(c, s, d);
  }

  lemma MainStepsDown(c: Config, s: State, a: MainStep)
    requires MainCan(c, s, a)
    ensures Remaining(c, MainDoes(c, s, a)) < Remaining(c, s)
  {
  }

  lemma DrainStepsDown(c: Config, s: State, d: DrainStep)
    requires DrainCan(s, d)
    ensures Remaining(c, DrainDoes(s, d)) < Remaining(c, s)
  {
  }

  // ----- whole runs -----

  /** A schedule: moves taken one after the other, each when it is enabled. */
  predicate Possible(c: Config, s: State, ms: seq<Move>)
    decreases |ms|
  {
    ms == [] || (Enabled(c, s, ms[0]) && Possible(c, Apply(c, s, ms[0]), ms[1..]))
  }

  function After(c: Config, s: State, ms: seq<Move>): State
    requires Possible(c, s, ms)
    decreases |ms|
  {
    if ms == [] then s else After(c, Apply(c, s, ms[0]), ms[1..])
  }

  lemma {:induction false} RunKeeps(c: Config, s: State, ms: seq<Move>, t: Target, n: Name)
    requires Phases(c, s) && Conserved(c, s, t) && Tallied(c, s, n) && Possible(c, s, ms)
    ensures var s' := After(c, s, ms); Phases(c, s') && Conserved(c, s', t) && Tallied(c, s', n)
    ensures |ms| + Remaining(c, After(c, s, ms)) <= Remaining(c, s)
    ensures |Waiting(After(c, s, ms))| <= |Waiting(s)|
    decreases |ms|
  {
    if ms != [] {
      var m := ms[0];
      StepPhases(c, s, m);
      StepConserved(c, s, m, t);
      StepTallied(c, s, m, n);
      StepsDown(c, s, m);
      RunKeeps(c, Apply(c, s, m), ms[1..], t, n);
    }
  }

  /** A pipeline that has not finished and cannot take a step. */
  ghost predicate Stuck(c: Config, s: State) {
    !s.main.Finished? && forall m :: !Enabled(c, s, m)
  }

  /** The pipeline has workers, or nothing to do. */
  predicate Manned(c: Config) {
    c.workers > 0 || c.targets == []
  }

  /** No schedule is longer than a bound fixed at the start, and with workers none is stuck before it has finished. */
  lemma RunsEnd(c: Config, ms: seq<Move>)
    requires Possible(c, Start(c), ms)
    ensures |ms| <= Remaining(c, Start(c))
    ensures Manned(c) ==> !Stuck(c, After(c, Start(c), ms))
  {
    StartPhases(c);
    StartConserved(c, 0, 0);
    RunKeeps(c, Start(c), ms, 0, 0);
    if Manned(c) && !After(c, Start(c), ms).main.Finished? {
      var m := NoDeadlock(c, After(c, Start(c), ms));
    }
  }

  /** A schedule that ends in a state that has not finished and cannot go on. */
  ghost predicate Deadlocks(c: Config, ms: seq<Move>) {
    Possible(c, Start(c), ms) && Stuck(c, After(c, Start(c), ms))
  }

  /** Some schedule deadlocks exactly if there are targets and no workers: the queue has no room for the first one. */
  lemma DeadlocksIff(c: Config)
    ensures (exists ms :: Deadlocks(c, ms)) <==> c.workers == 0 && c.targets != []
  {
    if Manned(c) {
      forall ms ensures !Deadlocks(c, ms) {
        if Possible(c, Start(c), ms) {
          RunsEnd(c, ms);
        }
      }
    } else {
      assert Deadlocks(c, []);
    }
  }

  /**
   * When the pipeline has finished, each target has led to ConnectionsPerHost results for each time it was listed,
   * and for each scanner name the successes and failures add up to the calls.
   */
  lemma FinishedRun(c: Config, ms: seq<Move>, t: Target, n: Name)
    requires Possible(c, Start(c), ms) && After(c, Start(c), ms).main.Finished?
    ensures var s := After(c, Start(c), ms);
      && multiset(s.written)[t] == c.connectionsPerHost * multiset(c.targets)[t]
      && s.successes[n] + s.failures[n] == s.calls[n]
  {
    StartPhases(c);
    StartConserved(c, t, n);
    RunKeeps(c, Start(c), ms, t, n);
    var s := After(c, Start(c), ms);
    if c.workers > 0 {
      assert s.workers[0] == Retired && WorkerOK(c, s, s.workers[0]);
    }
    NothingOwed(c, s.workers, t, n);
    TimesIsProduct(1, s.written, t);
    TimesIsProduct(c.connectionsPerHost, c.targets, t);
  }
}

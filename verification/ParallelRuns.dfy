/** `StartParallelRuns`: how many workers, what each is called and told, and the rollback when one fails. */
module ParallelRuns {
  import opened Ids
  import opened Wrappers
  import RunnerService

  /** A script's parallel settings, straight from its script.json. */
  datatype Config = Config(maxWorkers: int, varyParam: string, chainParam: string, names: seq<string>)

  type Params = map<string, string>

  // ----- How many -----

  function Workers(count: int, maxWorkers: int): int {
    var atLeastOne := if count < 1 then 1 else count;
    if atLeastOne > maxWorkers then maxWorkers else atLeastOne
  }

  /** The loop may start nobody at all, and then registers an empty group: exactly for a cap below one. */
  lemma SomebodyStartsIff(count: int, maxWorkers: int)
    ensures Workers(count, maxWorkers) >= 1 <==> maxWorkers >= 1
    ensures maxWorkers >= 1 ==> Workers(count, maxWorkers) <= maxWorkers
    ensures 1 <= count <= maxWorkers ==> Workers(count, maxWorkers) == count
    ensures count < 1 <= maxWorkers ==> Workers(count, maxWorkers) == 1
    ensures 1 <= maxWorkers < count ==> Workers(count, maxWorkers) == maxWorkers
  {}

  // ----- What they are called -----

  function Digit(d: nat): char
    requires d < 10
  {
    '0' + d as char
  }

  /** `%d` */
  function Decimal(n: nat): (text: string)
    ensures text != ""
  {
    if n < 10 then [Digit(n)] else Decimal(n / 10) + [Digit(n % 10)]
  }

  function Generated(index: nat): string {
    "Worker-" + Decimal(index + 1)
  }

  function NameFor(names: seq<string>, index: nat): string {
    if index < |names| then names[index] else Generated(index)
  }

  lemma {:induction false} DecimalIsInjective(m: nat, n: nat)
    ensures Decimal(m) == Decimal(n) ==> m == n
    decreases m
  {
    if Decimal(m) == Decimal(n) {
      assert Decimal(m)[|Decimal(m)| - 1] == Digit(m % 10) && Decimal(n)[|Decimal(n)| - 1] == Digit(n % 10);
      if m >= 10 && n >= 10 {
        assert Decimal(m)[..|Decimal(m)| - 1] == Decimal(m / 10);
        assert Decimal(n)[..|Decimal(n)| - 1] == Decimal(n / 10);
        DecimalIsInjective(m / 10, n / 10);
      }
    }
  }

  lemma GeneratedIsInjective(i: nat, j: nat)
    ensures Generated(i) == Generated(j) ==> i == j
  {
    assert Generated(i)[7..] == Decimal(i + 1) && Generated(j)[7..] == Decimal(j + 1);
    DecimalIsInjective(i + 1, j + 1);
  }

  ghost predicate UniqueNames(names: seq<string>, n: nat) {
    forall i, j :: 0 <= i < j < n ==> NameFor(names, i) != NameFor(names, j)
  }

  /** The configured names that are used differ from each other and from every generated name that is used. */
  ghost predicate NamesAllow(names: seq<string>, n: nat) {
    && (forall i, j :: 0 <= i < j < n && j < |names| ==> names[i] != names[j])
    && (forall i, j :: 0 <= i < |names| <= j < n ==> names[i] != Generated(j))
  }

  /** The promise of unique names holds exactly when the script's own list allows it. */
  lemma NamesAreUniqueIff(names: seq<string>, n: nat)
    ensures UniqueNames(names, n) <==> NamesAllow(names, n)
  {
    if NamesAllow(names, n) {
      forall i, j | 0 <= i < j < n ensures NameFor(names, i) != NameFor(names, j) {
        GeneratedIsInjective(i, j);
      }
    }
    if UniqueNames(names, n) {
      forall i, j | 0 <= i < j < n && j < |names| ensures names[i] != names[j] {
        assert NameFor(names, i) == names[i] && NameFor(names, j) == names[j];
      }
      forall i, j | 0 <= i < |names| <= j < n ensures names[i] != Generated(j) {
        assert NameFor(names, i) == names[i] && NameFor(names, j) == Generated(j);
      }
    }
  }

  /** A list that holds a generated name gives two workers that name. */
  lemma ConfiguredNameCollides(j: nat)
    requires j > 0
    ensures !UniqueNames([Generated(j)], j + 1)
    ensures Generated(1) == "Worker-2"
  {
    assert NameFor([Generated(j)], 0) == NameFor([Generated(j)], j);
    assert Decimal(2) == "2";
  }

  // ----- What they are told -----

  function ChainValue(names: seq<string>, index: nat): string {
    if index > 0 then NameFor(names, index - 1) else ""
  }

  function WorkerParams(config: Config, params: Params, index: nat): Params {
    var varied := params[config.varyParam := NameFor(config.names, index)];
    if config.chainParam == "" then varied else varied[config.chainParam := ChainValue(config.names, index)]
  }

  predicate Overwritten(config: Config) {
    config.chainParam != "" && config.chainParam == config.varyParam
  }

  ghost predicate ToldApart(config: Config, params: Params, n: nat) {
    forall i, j :: 0 <= i < j < n ==>
      WorkerParams(config, params, i)[config.varyParam] != WorkerParams(config, params, j)[config.varyParam]
  }

  predicate NoneEmpty(names: seq<string>, n: nat) {
    forall i :: 0 <= i < n && i < |names| ==> names[i] != ""
  }

  /** What a worker finds under the varied parameter: its name, unless the chain was written over it. */
  lemma VariedValue(config: Config, params: Params, index: nat)
    ensures WorkerParams(config, params, index)[config.varyParam]
         == if Overwritten(config) then ChainValue(config.names, index) else NameFor(config.names, index)
  {}

  /**
   The chain parameter holds what the predecessor was told to vary, unless the chain overwrote that
   too and the names before differ; the first worker's is empty; all else is what the user entered.
   */
  lemma ChainLinksNeighboursIff(config: Config, params: Params, index: nat)
    requires config.chainParam != ""
    ensures WorkerParams(config, params, 0)[config.chainParam] == ""
    ensures index > 0 ==>
      (WorkerParams(config, params, index)[config.chainParam] == WorkerParams(config, params, index - 1)[config.varyParam]
       <==> !Overwritten(config) || ChainValue(config.names, index) == ChainValue(config.names, index - 1))
  {
    if index > 0 {
      VariedValue(config, params, index - 1);
    }
  }

  lemma OtherParamsAreKept(config: Config, params: Params, index: nat, key: string)
    requires key != config.varyParam && !(config.chainParam != "" && key == config.chainParam)
    ensures key in WorkerParams(config, params, index) <==> key in params
    ensures key in params ==> WorkerParams(config, params, index)[key] == params[key]
  {}

  lemma ChainApartIff(names: seq<string>, n: nat)
    requires n > 0
    ensures (forall i, j :: 0 <= i < j < n ==> ChainValue(names, i) != ChainValue(names, j))
      <==> NamesAllow(names, n - 1) && NoneEmpty(names, n - 1)
  {
    NamesAreUniqueIff(names, n - 1);
    if NamesAllow(names, n - 1) && NoneEmpty(names, n - 1) {
      forall i, j | 0 <= i < j < n ensures ChainValue(names, i) != ChainValue(names, j) {
        assert i > 0 ==> NameFor(names, i - 1) != NameFor(names, j - 1);
      }
    }
    if forall i, j :: 0 <= i < j < n ==> ChainValue(names, i) != ChainValue(names, j) {
      forall i, j | 0 <= i < j < n - 1 ensures NameFor(names, i) != NameFor(names, j) {
        assert ChainValue(names, i + 1) != ChainValue(names, j + 1);
      }
      forall i | 0 <= i < n - 1 && i < |names| ensures names[i] != "" {
        assert ChainValue(names, 0) != ChainValue(names, i + 1);
      }
    }
  }

  /**
   The workers are told apart exactly when the used names allow it; if the chain parameter is the
   varied one, each gets its predecessor's name instead, and the names must not be empty either.
   */
  lemma WorkersDifferIff(config: Config, params: Params, n: nat)
    requires n > 0
    ensures ToldApart(config, params, n) <==>
              if Overwritten(config) then NamesAllow(config.names, n - 1) && NoneEmpty(config.names, n - 1)
              else NamesAllow(config.names, n)
  {
    NamesAreUniqueIff(config.names, n);
    ChainApartIff(config.names, n);
    forall i: nat | i < n
      ensures WorkerParams(config, params, i)[config.varyParam]
           == if Overwritten(config) then ChainValue(config.names, i) else NameFor(config.names, i)
    {
      VariedValue(config, params, i);
    }
  }

  // ----- Starting and rolling back -----

  /** The runs started before the first failure. */
  function StartedRuns(spawned: seq<Option<RunId>>): seq<RunId> {
    if spawned == [] || spawned[0].None? then [] else [spawned[0].value] + StartedRuns(spawned[1..])
  }

  lemma {:induction false} StartedPrefix(spawned: seq<Option<RunId>>, i: nat)
    requires i <= |spawned| && forall k :: 0 <= k < i ==> spawned[k].Some?
    ensures |StartedRuns(spawned[..i])| == i
    ensures i < |spawned| && spawned[i].None? ==> StartedRuns(spawned) == StartedRuns(spawned[..i])
    ensures i < |spawned| && spawned[i].Some? ==>
              StartedRuns(spawned[..i + 1]) == StartedRuns(spawned[..i]) + [spawned[i].value]
    decreases i
  {
    if i > 0 {
      StartedPrefix(spawned[1..], i - 1);
      assert spawned[1..][..i - 1] == spawned[..i][1..];
      if i < |spawned| {
        assert spawned[1..][..i] == spawned[..i + 1][1..];
      }
    } else if |spawned| > 0 {
      assert spawned[..1][1..] == [];
    }
  }

  /**
   `spawned[i]` is what `Manager.StartRun` makes of worker i, and `active` tells which runs can still
   be cancelled. Either everybody starts and forms a registered group, or everybody who had started
   is asked to stop, in order, those who no longer can are reported, and no group is left behind.
   `forwarded` are the runs whose messages are being forwarded, in both cases all that started.
   */
  method StartParallelRuns(service: RunnerService.Service, groupID: string, scriptID: string, config: Config,
                           params: Params, workerCount: int, spawned: seq<Option<RunId>>, active: set<RunId>)
    returns (result: Option<seq<RunId>>, told: seq<Params>, forwarded: seq<RunId>, cancels: seq<RunId>, incomplete: seq<RunId>)
    requires |spawned| == if Workers(workerCount, config.maxWorkers) < 0 then 0 else Workers(workerCount, config.maxWorkers)
    modifies service`groups, service`runGroups
    ensures forall i :: 0 <= i < |told| ==> told[i] == WorkerParams(config, params, i)
    ensures forwarded == StartedRuns(spawned)
    ensures var started := StartedRuns(spawned);
      if |started| == |spawned| then
        && result == Some(started) && |told| == |spawned| && cancels == [] && incomplete == []
        && service.Contents()
           == RunnerService.AfterRegister(old(service.Contents()), groupID, RunnerService.Group(scriptID, started))
      else
        && result == None && |told| == |started| + 1 && cancels == started
        && incomplete == NotActive(started, active)
        && service.Contents() == old(service.Contents())
  {
    var count := if workerCount < 1 then 1 else workerCount;
    if count > config.maxWorkers {
      count := config.maxWorkers;
    }
    var runIDs := [];
    told, forwarded, cancels, incomplete := [], [], [], [];
    var i := 0;
    while i < count
      invariant 0 <= i <= |spawned| && |told| == i && cancels == [] && incomplete == []
      invariant forall k :: 0 <= k < i ==> spawned[k].Some?
      invariant runIDs == StartedRuns(spawned[..i]) && forwarded == runIDs
      invariant forall k :: 0 <= k < i ==> told[k] == WorkerParams(config, params, k)
      invariant service.Contents() == old(service.Contents())
    {
      var wp := params[config.varyParam := NameFor(config.names, i)];
      if config.chainParam != "" {
        if i > 0 {
          wp := wp[config.chainParam := NameFor(config.names, i - 1)];
        } else {
          wp := wp[config.chainParam := ""];
        }
      }
      told := told + [wp];
      StartedPrefix(spawned, i);
      if spawned[i].None? {
        cancels, incomplete := Rollback(runIDs, active);
        result := None;
        return;
      }
      forwarded := forwarded + [spawned[i].value];
      runIDs := runIDs + [spawned[i].value];
      i := i + 1;
    }
    StartedPrefix(spawned, i);
    assert spawned[..i] == spawned;
    service.RegisterGroup(groupID, scriptID, runIDs);
    result := Some(runIDs);
  }

  function NotActive(runs: seq<RunId>, active: set<RunId>): seq<RunId> {
    if runs == [] then []
    else NotActive(runs[..|runs| - 1], active) + if runs[|runs| - 1] in active then [] else [runs[|runs| - 1]]
  }

  /** Exactly the runs that can no longer be cancelled are reported, as often as they were started. */
  lemma {:induction false} ReportedIffNotActive(runs: seq<RunId>, active: set<RunId>, run: RunId)
    ensures multiset(NotActive(runs, active))[run] == if run in active then 0 else multiset(runs)[run]
  {
    if runs != [] {
      ReportedIffNotActive(runs[..|runs| - 1], active, run);
      assert runs == runs[..|runs| - 1] + [runs[|runs| - 1]];
    }
  }

  /** Ask every started run to stop; `CancelRun` refuses those that have ended. */
  method Rollback(runIDs: seq<RunId>, active: set<RunId>) returns (cancels: seq<RunId>, incomplete: seq<RunId>)
    ensures cancels == runIDs && incomplete == NotActive(runIDs, active)
  {
    cancels, incomplete := [], [];
    var i := 0;
    while i < |runIDs|
      invariant 0 <= i <= |runIDs|
      invariant cancels == runIDs[..i] && incomplete == NotActive(runIDs[..i], active)
    {
      assert runIDs[..i + 1][..i] == runIDs[..i];
      cancels := cancels + [runIDs[i]];
      if runIDs[i] !in active {
        incomplete := incomplete + [runIDs[i]];
      }
      i := i + 1;
    }
    assert runIDs[..i] == runIDs;
  }

  /** A cap below one: nobody starts, and the empty group that is registered survives every clear. */
  lemma CapBelowOneLeaks(config: Config, count: int, table: RunnerService.Table, id: string, scriptID: string, runs: seq<RunId>)
    requires config.maxWorkers < 1 && RunnerService.Consistent(table) && id !in table.groups
    ensures Workers(count, config.maxWorkers) < 1
    ensures var registered := RunnerService.AfterRegister(table, id, RunnerService.Group(scriptID, StartedRuns([])));
      id in RunnerService.AfterClears(registered, runs).groups
  {
    RunnerService.EmptyGroupStays(table, id, RunnerService.Group(scriptID, StartedRuns([])), runs);
  }
}

/** `Manager` as Go writes it, run by one thread at a time: cancelling, deriving and recording. */
module Manager {
  import opened Ids
  import opened Wrappers
  import opened Lifecycle
  import opened LifecycleInvariants
  import opened LifecycleText
  import GrpcServer
  import Cache

  function Readable(rows: seq<Option<Record>>): seq<Record> {
    if rows == [] then []
    else Readable(rows[..|rows| - 1]) + if rows[|rows| - 1].Some? then [rows[|rows| - 1].value] else []
  }

  /** How many of the rows can be read. */
  function ReadableRows(rows: seq<Option<Record>>): nat {
    if rows == [] then 0 else ReadableRows(rows[..|rows| - 1]) + if rows[|rows| - 1].Some? then 1 else 0
  }

  /** The i-th row, if it can be read, comes after exactly the readable rows before it. */
  lemma {:induction false} RowsAreReadInOrder(rows: seq<Option<Record>>, i: nat)
    requires i < |rows| && rows[i].Some?
    ensures |Readable(rows)| == ReadableRows(rows)
    ensures ReadableRows(rows[..i]) < |Readable(rows)| && Readable(rows)[ReadableRows(rows[..i])] == rows[i].value
  {
    var n := |rows| - 1;
    ReadCount(rows);
    ReadCount(rows[..n]);
    if i < n {
      RowsAreReadInOrder(rows[..n], i);
      assert rows[..n][..i] == rows[..i];
    }
  }

  lemma {:induction false} ReadCount(rows: seq<Option<Record>>)
    ensures |Readable(rows)| == ReadableRows(rows)
  {
    if rows != [] {
      ReadCount(rows[..|rows| - 1]);
    }
  }

  /**
   A crash is reported exactly for a run that failed with an exit code and left a text without ever
   having reported an error, and what is reported is that text, cut at its limit.
   */
  predicate ProperCrash(report: Option<string>, exit: Exit, status: Status, heard: seq<ClientMsg>) {
    && (report.Some? <==> status == Failed && exit.code != 0 && exit.stderr != "" && !AnyError(heard))
    && (report.Some? ==> Shortens(report.value, exit.stderr))
  }

  class RunState {
    const runID: RunId
    var status: Status
    var cancelRequested: bool

    constructor (runID: RunId)
      ensures this.runID == runID && status == Running && !cancelRequested
    {
      this.runID, status, cancelRequested := runID, Running, false;
    }
  }

  class Manager {
    var activeRuns: map<RunId, RunState>
    var history: seq<Record>
    const grpc: GrpcServer.Server

    constructor (grpc: GrpcServer.Server)
      ensures activeRuns == map[] && history == [] && this.grpc == grpc
    {
      this.grpc, activeRuns, history := grpc, map[], [];
    }

    /** The finished runs of earlier sessions, in the order of the query; a row that cannot be read is skipped. */
    method LoadHistory(rows: seq<Option<Record>>)
      modifies this`history
      ensures history == old(history) + Readable(rows)
    {
      var i := 0;
      while i < |rows|
        invariant 0 <= i <= |rows|
        invariant history == old(history) + Readable(rows[..i])
      {
        assert rows[..i + 1][..i] == rows[..i];
        if rows[i].Some? {
          history := history + [rows[i].value];
        }
        i := i + 1;
      }
      assert rows[..i] == rows;
    }

    /** What a client has said to the server on behalf of a run that is still registered. */
    ghost function Heard(runID: RunId): seq<ClientMsg>
      reads grpc, set id | id in grpc.runs :: grpc.runs[id]
    {
      if runID in grpc.runs then grpc.runs[runID].taken else []
    }

    ghost predicate Cancelling(runID: RunId)
      reads this`activeRuns, set id | id in activeRuns :: activeRuns[id]
    {
      runID in activeRuns && activeRuns[runID].cancelRequested
    }

    /** The first critical section of `CancelRun`; false is `ErrRunNotActive`. */
    method RequestCancel(runID: RunId) returns (ok: bool)
      modifies if runID in activeRuns then {activeRuns[runID]} else {}
      ensures ok == (runID in activeRuns)
      ensures Cancelling(runID) == ok
      ensures ok ==> activeRuns[runID].status == old(activeRuns[runID].status)
    {
      if runID !in activeRuns {
        return false;
      }
      activeRuns[runID].cancelRequested := true;
      return true;
    }

    method WasCancelled(runID: RunId) returns (cancelled: bool)
      ensures cancelled == Cancelling(runID)
    {
      if runID in activeRuns {
        return activeRuns[runID].cancelRequested;
      }
      return false;
    }

    /** The ladder of reads decides by everything the client ever said, not only by its last message. */
    method DeriveFinalStatus(runID: RunId, exit: Exit) returns (status: Status)
      requires grpc.Valid()
      ensures status == Verdict(Cancelling(runID), exit, Heard(runID))
    {
      var cancelled := WasCancelled(runID);
      if cancelled {
        return Cancelled;
      }
      if exit.waitErr.Some? || exit.code != 0 {
        return Failed;
      }
      GrpcServer.NotedIsSummary(Heard(runID));
      var gotError, reported := false, None;
      if runID in grpc.runs {
        gotError, reported := grpc.runs[runID].gotError, grpc.runs[runID].pythonStatus;
      }
      if gotError {
        return Failed;
      }
      if reported == Some(Failed) {
        return Failed;
      }
      if reported == Some(Completed) {
        return Completed;
      }
      return Failed;
    }

    /** The last critical section of `waitForExit`: fix the status, leave `activeRuns`, enter the history. */
    method Retire(runID: RunId, finalStatus: Status) returns (recordStatus: Status, ignored: bool)
      modifies this`activeRuns, this`history, if runID in activeRuns then {activeRuns[runID]} else {}
      ensures activeRuns == old(activeRuns) - {runID}
      ensures history == old(history) + [Record(runID, recordStatus)]
      ensures ignored == (runID in old(activeRuns) && IsTerminal(old(activeRuns[runID].status)))
      ensures recordStatus == if ignored then old(activeRuns[runID].status) else finalStatus
    {
      recordStatus, ignored := finalStatus, false;
      if runID in activeRuns {
        var state := activeRuns[runID];
        if !IsTerminal(state.status) {
          state.status := finalStatus;
        } else {
          ignored := true;
        }
        recordStatus := state.status;
      }
      activeRuns := activeRuns - {runID};
      history := history + [Record(runID, recordStatus)];
    }

    /** The text for the database: stderr, else the last error message, else the process error. */
    method FailureText(runID: RunId, exit: Exit, finalStatus: Status) returns (text: string)
      requires grpc.Valid()
      ensures ProperText(text, exit, finalStatus, Heard(runID))
    {
      if finalStatus != Failed {
        return "";
      }
      if exit.stderr != "" {
        if |exit.stderr| > MAX_STDERR_LOG {
          return exit.stderr[..MAX_STDERR_LOG] + TRUNCATED;
        }
        return exit.stderr;
      }
      GrpcServer.NotedIsSummary(Heard(runID));
      NoErrorNoText(Heard(runID));
      LastErrorIsLast(Heard(runID), "");
      var msg := "";
      if runID in grpc.runs && grpc.runs[runID].errorMessage.Some? {
        msg := grpc.runs[runID].errorMessage.value;
      }
      if msg != "" {
        LastErrorIsLast(Heard(runID), msg);
        return msg;
      }
      return if exit.waitErr.Some? then exit.waitErr.value else "";
    }

    /** The stderr of a crash without a structured error, as it goes to the run's pane. */
    method CrashReport(runID: RunId, exit: Exit, finalStatus: Status) returns (report: Option<string>)
      requires grpc.Valid()
      ensures ProperCrash(report, exit, finalStatus, Heard(runID))
    {
      GrpcServer.NotedIsSummary(Heard(runID));
      var gotError := runID in grpc.runs && grpc.runs[runID].gotError;
      if finalStatus == Failed && exit.code != 0 && exit.stderr != "" && !gotError {
        if |exit.stderr| > MAX_STDERR_LOG {
          return Some(exit.stderr[..MAX_STDERR_LOG] + TRUNCATED);
        }
        return Some(exit.stderr);
      }
      return None;
    }

    /** The first half of `waitForExit`: derive the status, send it as the last message, take the texts. */
    method Settle(runID: RunId, exit: Exit)
      returns (finalStatus: Status, crash: Option<string>, errorMessage: string)
      requires grpc.Valid()
      modifies if runID in grpc.runs then {grpc.runs[runID]} else {}
      ensures grpc.Valid()
      ensures finalStatus == Verdict(old(Cancelling(runID)), exit, old(Heard(runID)))
      ensures ProperCrash(crash, exit, finalStatus, old(Heard(runID)))
      ensures ProperText(errorMessage, exit, finalStatus, old(Heard(runID)))
      ensures runID in grpc.runs ==>
        grpc.runs[runID].messages == old(grpc.runs[runID].messages) + [StatusMsg(finalStatus)]
    {
      finalStatus := DeriveFinalStatus(runID, exit);
      crash := CrashReport(runID, exit, finalStatus);
      grpc.TrySendStatus(runID, finalStatus);
      errorMessage := FailureText(runID, exit, finalStatus);
    }

    /** The second half: clean the cache up, close and drop the channel, record. */
    method Withdraw(runID: RunId, finalStatus: Status) returns (recordStatus: Status)
      requires grpc.Valid() && grpc.cache.Valid()
      modifies this`activeRuns, this`history, if runID in activeRuns then {activeRuns[runID]} else {}
      modifies grpc`runs, if runID in grpc.runs then {grpc.runs[runID]} else {}
      modifies grpc.cache, grpc.cache.repr
      ensures activeRuns == old(activeRuns) - {runID} && grpc.runs == old(grpc.runs) - {runID}
      ensures history == old(history) + [Record(runID, recordStatus)]
      ensures recordStatus == if runID in old(activeRuns) && IsTerminal(old(activeRuns[runID].status))
                              then old(activeRuns[runID].status) else finalStatus
      ensures runID in old(grpc.runs) ==>
        old(grpc.runs[runID]).messagesClosed && old(grpc.runs[runID]).messages == old(grpc.runs[runID].messages)
      ensures grpc.cache.contents == Cache.AfterCleanup(old(grpc.cache.contents), runID)
    {
      grpc.cache.CleanupRun(runID);
      grpc.UnregisterRun(runID);
      var status, _ := Retire(runID, finalStatus);
      return status;
    }

    /**
     `waitForExit` once the process and its stream have ended: the channel's last message carries the
     verdict on all the client said, and so does the history, unless the run had a terminal status.
     `LifecycleResults.NothingElseIsRecorded` shows that no run being reaped has one.
     */
    method WaitForExit(runID: RunId, exit: Exit)
      returns (finalStatus: Status, recordStatus: Status, crash: Option<string>, errorMessage: string)
      requires grpc.Valid() && grpc.cache.Valid()
      modifies this`activeRuns, this`history, if runID in activeRuns then {activeRuns[runID]} else {}
      modifies grpc`runs, if runID in grpc.runs then {grpc.runs[runID]} else {}
      modifies grpc.cache, grpc.cache.repr
      ensures finalStatus == Verdict(old(Cancelling(runID)), exit, old(Heard(runID)))
      ensures recordStatus == if runID in old(activeRuns) && IsTerminal(old(activeRuns[runID].status))
                              then old(activeRuns[runID].status) else finalStatus
      ensures ProperCrash(crash, exit, finalStatus, old(Heard(runID)))
      ensures ProperText(errorMessage, exit, finalStatus, old(Heard(runID)))
      ensures grpc.runs == old(grpc.runs) - {runID}
      ensures grpc.cache.contents == Cache.AfterCleanup(old(grpc.cache.contents), runID)
      ensures history == old(history) + [Record(runID, recordStatus)] && activeRuns == old(activeRuns) - {runID}
      ensures runID in old(grpc.runs) ==>
        && old(grpc.runs[runID]).messages == old(grpc.runs[runID].messages) + [StatusMsg(finalStatus)]
        && old(grpc.runs[runID]).messagesClosed
    {
      finalStatus, crash, errorMessage := Settle(runID, exit);
      recordStatus := Withdraw(runID, finalStatus);
    }
  }
}

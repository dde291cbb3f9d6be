/** The log of undecided transactions: kept in memory and on disk, retried until resolved or given up. */
module RecoveryLog {
  import opened Prelude

  datatype Decision = Commit | Rollback

  datatype Entry = Entry(state: Decision, times: int)

  datatype Record = Record(xid: string, entry: Entry)

  /**
    What the backends answer in one retry of a transaction: whether a session could be had, for each
    backend whether it lists the transaction as prepared (None is an error), and for those that do
    whether they carried the decision out.
  */
  datatype Reply = Reply(session: bool, scans: seq<Option<bool>>, oks: nat -> bool)

  /** A file lists the entries of a map, each once, in any order. */
  ghost predicate Lists(logs: seq<Record>, entries: map<string, Entry>) {
    && (forall i | 0 <= i < |logs| :: logs[i].xid in entries && entries[logs[i].xid] == logs[i].entry)
    && (forall xid | xid in entries :: exists i :: 0 <= i < |logs| && logs[i].xid == xid)
    && (forall i, k | 0 <= i < k < |logs| :: logs[i].xid != logs[k].xid)
  }

  function Scanned(scans: seq<Option<bool>>): set<nat> {
    set b | 0 <= b < |scans| && scans[b] == Some(true)
  }

  predicate ScanFails(reply: Reply) {
    |reply.scans| == 0 || !reply.session || exists b | 0 <= b < |reply.scans| :: reply.scans[b].None?
  }

  /** Some backends have the transaction prepared and all of these carried out the decision. */
  predicate Resolves(reply: Reply) {
    Scanned(reply.scans) != {} && forall b | 0 <= b < |reply.scans| && reply.scans[b] == Some(true) :: reply.oks(b)
  }

  /** Asks every backend for its prepared transactions. */
  method Scan(reply: Reply) returns (failed: bool)
    ensures failed <==> ScanFails(reply)
  {
    if |reply.scans| == 0 || !reply.session {
      return true;
    }
    for b := 0 to |reply.scans|
      invariant forall k | 0 <= k < b :: reply.scans[k].Some?
    {
      if reply.scans[b].None? {
        return true;
      }
    }
    return false;
  }

  /** Sends the decision to the backends that have the transaction prepared. */
  method SendDecision(reply: Reply) returns (resolved: bool)
    requires !ScanFails(reply)
    ensures resolved <==> Resolves(reply)
  {
    var need: seq<nat> := [];
    for b := 0 to |reply.scans|
      invariant forall i | 0 <= i < |need| :: need[i] < b && reply.scans[need[i]] == Some(true)
      invariant forall k | 0 <= k < b && reply.scans[k] == Some(true) :: k in need
    {
      if reply.scans[b].value {
        need := need + [b];
      }
    }
    var count := 0;
    for i := 0 to |need|
      invariant count <= i
      invariant count == i <==> forall k | 0 <= k < i :: reply.oks(need[k])
    {
      if reply.oks(need[i]) {
        count := count + 1;
      }
    }
    resolved := count > 0 && count == |need|;
    if |need| > 0 {
      assert need[0] in Scanned(reply.scans);
    }
    if resolved {
      forall b | 0 <= b < |reply.scans| && reply.scans[b] == Some(true) ensures reply.oks(b) {
        var k :| 0 <= k < |need| && need[k] == b;
      }
    }
  }

  /** The entries that a file lists. */
  method ReadBack(logs: seq<Record>, ghost entries: map<string, Entry>) returns (m: map<string, Entry>)
    requires Lists(logs, entries)
    ensures m == entries
  {
    m := map[];
    for i := 0 to |logs|
      invariant forall xid | xid in m :: xid in entries && m[xid] == entries[xid]
      invariant forall xid :: xid in m <==> exists k :: 0 <= k < i && logs[k].xid == xid
    {
      m := m[logs[i].xid := logs[i].entry];
    }
  }

  class XaCheck {
    const times: int
    var retrys: map<string, Entry>
    var file: Option<seq<Record>>
    var timesOut: seq<Record>
    /**
      What the file holds, the decisions that were accepted, how long the file of those given up then
      was, and the transactions that were resolved since.
    */
    ghost var disk: map<string, Entry>
    ghost var accepted: map<string, Decision>
    ghost var since: map<string, nat>
    ghost var resolved: set<string>

    ghost predicate FileOk()
      reads this
    {
      if file.None? then disk == map[] else Lists(file.value, disk)
    }

    /** Every accepted decision is on disk until it is resolved or given up: a crash cannot lose it. */
    ghost predicate Safe()
      reads this
    {
      && FileOk()
      && (forall xid | xid in disk :: xid in accepted && disk[xid].state == accepted[xid])
      && Accounted(accepted, since, disk.Keys, resolved, timesOut)
    }

    /** Between critical sections the file and the memory agree, but for retries that were counted since. */
    ghost predicate Valid()
      reads this
    {
      && Safe() && disk.Keys == retrys.Keys
      && forall xid | xid in retrys :: retrys[xid].state == disk[xid].state && retrys[xid].times <= disk[xid].times
    }

    constructor (times: int)
      ensures Valid() && this.times == times && retrys == map[] && accepted == map[]
    {
      this.times, retrys, file, timesOut := times, map[], None, [];
      disk, accepted, since, resolved := map[], map[], map[], {};
    }

    /** Rewrites the file from memory. */
    method Flush()
      modifies `file, `disk
      ensures FileOk() && disk == retrys
    {
      var logs: seq<Record> := [];
      var todo := retrys.Keys;
      while todo != {}
        invariant todo <= retrys.Keys
        invariant forall i | 0 <= i < |logs| ::
          logs[i].xid in retrys && logs[i].xid !in todo && retrys[logs[i].xid] == logs[i].entry
        invariant forall xid | xid in retrys && xid !in todo :: exists i :: 0 <= i < |logs| && logs[i].xid == xid
        invariant forall i, k | 0 <= i < k < |logs| :: logs[i].xid != logs[k].xid
        decreases todo
      {
        var xid :| xid in todo;
        ghost var before := logs;
        logs := logs + [Record(xid, retrys[xid])];
        todo := todo - {xid};
        assert logs[|before|].xid == xid;
        forall x | x in retrys && x !in todo ensures exists i :: 0 <= i < |logs| && logs[i].xid == x {
          if x != xid {
            var i :| 0 <= i < |before| && before[i].xid == x;
            assert logs[i].xid == x;
          }
        }
      }
      file, disk := Some(logs), retrys;
    }

    /** Accepts a decision; one that is pending already is not overwritten. */
    method WriteXaCommitErrLog(xid: string, state: Decision) returns (ok: bool)
      requires Valid()
      modifies `retrys, `file, `disk, `accepted, `since, `resolved
      ensures Valid() && (ok <==> xid !in old(retrys))
      ensures ok ==> retrys == old(retrys)[xid := Entry(state, times)] && accepted == old(accepted)[xid := state]
      ensures ok ==> since == old(since)[xid := |timesOut|] && resolved == old(resolved) - {xid} && disk == retrys
      ensures !ok ==> retrys == old(retrys) && accepted == old(accepted) && disk == old(disk)
      ensures !ok ==> since == old(since) && resolved == old(resolved)
    {
      if xid in retrys {
        return false;
      }
      retrys := retrys[xid := Entry(state, times)];
      Flush();
      assert Accounted(accepted[xid := state], since[xid := |timesOut|], disk.Keys, resolved - {xid}, timesOut) by {
        AccountedAnew(accepted, since, old(disk).Keys, resolved, timesOut, xid, state);
        assert disk.Keys == old(disk).Keys + {xid};
      }
      accepted, since, resolved := accepted[xid := state], since[xid := |timesOut|], resolved - {xid};
      ok := true;
    }

    /**
      One retry of a pending decision. Only a backend that cannot be asked is an error, and then nothing
      changes. A decision that cannot be carried out loses one of its retries, or with none left is
      written to the file of those given up.
    */
    method CommitRetryBackends(xid: string, reply: Reply) returns (done: bool, err: bool)
      requires Valid() && xid in retrys
      modifies `retrys, `timesOut, `resolved
      ensures Valid() && (err <==> ScanFails(reply)) && (err ==> !done)
      ensures !err ==> (done <==> Resolves(reply) || old(retrys)[xid].times <= 0)
      ensures err || done ==> retrys == old(retrys)
      ensures !err && !done ==> retrys == old(retrys)[xid := Entry(old(retrys)[xid].state, old(retrys)[xid].times - 1)]
      ensures if done && Resolves(reply) then resolved == old(resolved) + {xid} else resolved == old(resolved)
      ensures done ==> xid in resolved || (xid in since && GivenUp(timesOut, since[xid], xid, retrys[xid].state))
      ensures if done && !Resolves(reply) then timesOut == old(timesOut) + [Record(xid, retrys[xid])]
        else timesOut == old(timesOut)
    {
      var failed := Scan(reply);
      if failed {
        return false, true;
      }
      var ok := SendDecision(reply);
      if ok {
        MarkResolved(xid);
        return true, false;
      }
      if retrys[xid].times <= 0 {
        GiveUp(xid);
        return true, false;
      }
      CountRetry(xid);
      return false, false;
    }

    ghost method MarkResolved(xid: string)
      requires Valid()
      modifies `resolved
      ensures Valid() && resolved == old(resolved) + {xid}
    {
      AccountedGrows(accepted, since, disk.Keys, resolved, timesOut, resolved + {xid}, timesOut);
      resolved := resolved + {xid};
    }

    /** Appends a decision to the file of those given up. */
    method GiveUp(xid: string)
      requires Valid() && xid in retrys
      modifies `timesOut
      ensures Valid() && timesOut == old(timesOut) + [Record(xid, retrys[xid])]
      ensures xid in since && GivenUp(timesOut, since[xid], xid, retrys[xid].state)
    {
      AccountedGrows(accepted, since, disk.Keys, resolved, timesOut, resolved, timesOut + [Record(xid, retrys[xid])]);
      timesOut := timesOut + [Record(xid, retrys[xid])];
      JustGivenUp(old(timesOut), Record(xid, retrys[xid]), since[xid]);
    }

    /** Takes one retry, in memory only. */
    method CountRetry(xid: string)
      requires Valid() && xid in retrys
      modifies `retrys
      ensures Valid() && retrys == old(retrys)[xid := Entry(old(retrys)[xid].state, old(retrys)[xid].times - 1)]
    {
      retrys := retrys[xid := Entry(retrys[xid].state, retrys[xid].times - 1)];
    }

    /** Takes a decision that is done out of the log. */
    method Remove(xid: string)
      requires Valid() && xid in retrys
      requires (xid in resolved || (xid in since && GivenUp(timesOut, since[xid], xid, retrys[xid].state)))
      modifies `retrys, `file, `disk
      ensures Valid() && retrys == old(retrys) - {xid} && disk == retrys
    {
      AccountedWithout(accepted, since, disk.Keys, resolved, timesOut, xid);
      retrys := retrys - {xid};
      Flush();
      assert disk.Keys == old(disk).Keys - {xid};
    }

    /** One retry, after which the decision is gone or has one retry less. */
    method RetryOne(xid: string, reply: Reply) returns (err: bool)
      requires Valid() && xid in retrys
      modifies `retrys, `file, `disk, `timesOut, `resolved
      ensures Valid() && old(resolved) <= resolved && old(timesOut) <= timesOut
      ensures err ==> retrys == old(retrys)
      ensures !err ==> Retried(old(retrys), retrys, xid)
    {
      var done;
      done, err := CommitRetryBackends(xid, reply);
      if done {
        Remove(xid);
      }
    }

    /** One round over all pending decisions, in any order; it stops at a backend that cannot be asked. */
    method XaCommitsRetry(replies: string -> Reply) returns (err: bool)
      requires Valid()
      modifies `retrys, `file, `disk, `timesOut, `resolved
      ensures Valid() && old(resolved) <= resolved && old(timesOut) <= timesOut
      ensures RoundSoFar(old(retrys), retrys, retrys.Keys)
      ensures !err ==> RoundSoFar(old(retrys), retrys, {})
    {
      var todo := retrys.Keys;
      while todo != {}
        invariant Valid() && old(resolved) <= resolved && old(timesOut) <= timesOut
        invariant todo <= retrys.Keys && RoundSoFar(old(retrys), retrys, todo)
        invariant forall xid | xid in todo :: retrys[xid] == old(retrys)[xid]
        decreases todo
      {
        var xid :| xid in todo;
        ghost var before := retrys;
        err := RetryOne(xid, replies(xid));
        if err {
          return;
        }
        RoundGoesOn(old(retrys), before, retrys, todo, xid);
        todo := todo - {xid};
      }
      err := false;
    }

    /** Starting again after a crash: the pending decisions are read back from the file. */
    method LoadXaCommitErrLogs()
      requires Safe()
      modifies `retrys
      ensures Valid() && retrys == disk
    {
      retrys := map[];
      if file.Some? {
        retrys := ReadBack(file.value, disk);
      }
    }

    /** A crash between critical sections loses no pending decision. */
    method Restart()
      requires Valid()
      modifies `retrys
      ensures Valid() && retrys.Keys == old(retrys).Keys
      ensures forall xid | xid in retrys ::
        retrys[xid].state == old(retrys)[xid].state && retrys[xid].times >= old(retrys)[xid].times
    {
      LoadXaCommitErrLogs();
    }

    /** A decision with t retries left is gone after t + 1 rounds without errors. */
    method Recover(rounds: seq<string -> Reply>) returns (errs: nat)
      requires Valid()
      modifies `retrys, `file, `disk, `timesOut, `resolved
      ensures Valid() && retrys.Keys <= old(retrys).Keys
      ensures errs == 0 ==> forall xid | xid in old(retrys) && old(retrys)[xid].times < |rounds| && 0 < |rounds| ::
        xid !in retrys
    {
      errs := 0;
      for i := 0 to |rounds|
        invariant Valid() && retrys.Keys <= old(retrys).Keys
        invariant errs == 0 ==> forall xid | xid in retrys ::
          retrys[xid].times == old(retrys)[xid].times - i && (i > 0 ==> retrys[xid].times >= 0)
      {
        var err := XaCommitsRetry(rounds[i]);
        if err {
          errs := errs + 1;
        }
      }
    }
  }

  /** Every accepted decision is pending, or was resolved or given up since it was accepted. */
  ghost predicate Accounted(accepted: map<string, Decision>, since: map<string, nat>, pending: set<string>,
                            resolved: set<string>, timesOut: seq<Record>)
  {
    && since.Keys == accepted.Keys
    && forall xid | xid in accepted ::
         since[xid] <= |timesOut| && Settled(xid, accepted, since, pending, resolved, timesOut)
  }

  ghost predicate Settled(xid: string, accepted: map<string, Decision>, since: map<string, nat>, pending: set<string>,
                          resolved: set<string>, timesOut: seq<Record>)
  {
    && xid in accepted && xid in since
    && (xid in pending || xid in resolved || GivenUp(timesOut, since[xid], xid, accepted[xid]))
  }

  lemma AccountedGrows(accepted: map<string, Decision>, since: map<string, nat>, pending: set<string>,
                       resolved: set<string>, timesOut: seq<Record>, resolved': set<string>, timesOut': seq<Record>)
    requires Accounted(accepted, since, pending, resolved, timesOut) && resolved <= resolved' && timesOut <= timesOut'
    ensures Accounted(accepted, since, pending, resolved', timesOut')
  {
    forall xid | xid in accepted ensures Settled(xid, accepted, since, pending, resolved', timesOut') {
      assert Settled(xid, accepted, since, pending, resolved, timesOut);
      if xid !in pending && xid !in resolved {
        StillGivenUp(timesOut, timesOut', since[xid], xid, accepted[xid]);
      }
    }
  }

  lemma AccountedWithout(accepted: map<string, Decision>, since: map<string, nat>, pending: set<string>,
                         resolved: set<string>, timesOut: seq<Record>, xid: string)
    requires Accounted(accepted, since, pending, resolved, timesOut) && xid in accepted
    requires xid in resolved || GivenUp(timesOut, since[xid], xid, accepted[xid])
    ensures Accounted(accepted, since, pending - {xid}, resolved, timesOut)
  {
    forall x | x in accepted ensures Settled(x, accepted, since, pending - {xid}, resolved, timesOut) {
      assert Settled(x, accepted, since, pending, resolved, timesOut);
    }
  }

  lemma AccountedAnew(accepted: map<string, Decision>, since: map<string, nat>, pending: set<string>,
                      resolved: set<string>, timesOut: seq<Record>, xid: string, state: Decision)
    requires Accounted(accepted, since, pending, resolved, timesOut)
    ensures Accounted(accepted[xid := state], since[xid := |timesOut|], pending + {xid}, resolved - {xid}, timesOut)
  {
    var accepted', since' := accepted[xid := state], since[xid := |timesOut|];
    forall x | x in accepted' ensures Settled(x, accepted', since', pending + {xid}, resolved - {xid}, timesOut) {
      assert x != xid ==> Settled(x, accepted, since, pending, resolved, timesOut);
    }
  }

  /** The decision left the log or was counted; the others are as they were. */
  ghost predicate Retried(before: map<string, Entry>, after: map<string, Entry>, xid: string)
    requires xid in before
  {
    after == before - {xid} || (xid in after && Counted(before[xid], after[xid]) && after == before[xid := after[xid]])
  }

  /** In a round the decisions of `todo` may be untouched; all others left the log or have one retry less. */
  ghost predicate RoundSoFar(before: map<string, Entry>, now: map<string, Entry>, todo: set<string>) {
    && now.Keys <= before.Keys
    && forall xid | xid in now :: Counted(before[xid], now[xid]) || (xid in todo && now[xid] == before[xid])
  }

  lemma RoundGoesOn(start: map<string, Entry>, before: map<string, Entry>, now: map<string, Entry>, todo: set<string>,
                    xid: string)
    requires todo <= before.Keys && RoundSoFar(start, before, todo) && xid in todo && Retried(before, now, xid)
    requires before[xid] == start[xid]
    ensures todo - {xid} <= now.Keys && RoundSoFar(start, now, todo - {xid})
  {
  }

  ghost predicate Counted(before: Entry, after: Entry) {
    before.times > 0 && after == before.(times := before.times - 1)
  }

  lemma StillGivenUp(before: seq<Record>, after: seq<Record>, from: nat, xid: string, state: Decision)
    requires before <= after && GivenUp(before, from, xid, state)
    ensures GivenUp(after, from, xid, state)
  {
    var i :| from <= i < |before| && before[i].xid == xid && before[i].entry.state == state;
    assert after[i] == before[i];
  }

  lemma JustGivenUp(before: seq<Record>, r: Record, from: nat)
    requires from <= |before|
    ensures GivenUp(before + [r], from, r.xid, r.entry.state)
  {
    assert (before + [r])[|before|] == r;
  }

  /** The decision was written to the file of those given up, after its first entries. */
  ghost predicate GivenUp(timesOut: seq<Record>, from: nat, xid: string, state: Decision) {
    exists i :: from <= i < |timesOut| && timesOut[i].xid == xid && timesOut[i].entry.state == state
  }
}

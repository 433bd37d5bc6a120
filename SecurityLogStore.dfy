/**
 * The security journal: newest entry first, only ever grown at the head.
 */
module SecurityLogStore {
  import opened Types

  /**
   * `addLog`: the new entry goes in front. The journal grows by exactly one,
   * its head is the new entry and every older entry is kept, in order.
   */
  function AddLog(logs: seq<SecurityLog>, log: SecurityLog): (r: seq<SecurityLog>)
    ensures |r| == |logs| + 1
    ensures r[0] == log
    ensures r[1..] == logs
  {
    [log] + logs
  }

  /** The journal after adding a run of entries one after the other. */
  function AddLogs(logs: seq<SecurityLog>, entries: seq<SecurityLog>): seq<SecurityLog>
    decreases |entries|
  {
    if entries == [] then logs else AddLogs(AddLog(logs, entries[0]), entries[1..])
  }

  /** `s` back to front. */
  function Reversed(s: seq<SecurityLog>): (r: seq<SecurityLog>)
    ensures |r| == |s|
  {
    if s == [] then [] else Reversed(s[1..]) + [s[0]]
  }

  /**
   * Adding a run of entries puts them in front of the old journal newest
   * first, i.e. in reverse order of insertion; the old journal is untouched.
   */
  lemma {:induction false} AddLogsNewestFirst(logs: seq<SecurityLog>, entries: seq<SecurityLog>)
    ensures AddLogs(logs, entries) == Reversed(entries) + logs
    decreases |entries|
  {
    if entries != [] {
      AddLogsNewestFirst(AddLog(logs, entries[0]), entries[1..]);
      assert Reversed(entries[1..]) + ([entries[0]] + logs) == (Reversed(entries[1..]) + [entries[0]]) + logs;
    }
  }

  /** Adding `e` and then `f` leaves `f` at index 0 and `e` at index 1. */
  lemma TwoAdds(logs: seq<SecurityLog>, e: SecurityLog, f: SecurityLog)
    ensures AddLogs(logs, [e, f]) == [f, e] + logs
  {
    AddLogsNewestFirst(logs, [e, f]);
    assert Reversed([e, f]) == [f, e] by {
      assert [e, f][1..] == [f];
      assert Reversed([f]) == [f] by { assert [f][1..] == []; }
    }
  }
}

/** The replicated log of raft/log.go: entries behind a dummy at index 0. */
module RaftLog {
  import opened Bytes

  type Command = Bytes

  datatype Entry = Entry(index: nat, term: nat, command: Command)

  const DUMMY := Entry(0, 0, [])

  function Lookup(log: seq<Entry>, index: nat): Option<Entry> {
    if index == 0 || index >= |log| then None else Some(log[index])
  }

  function LastIndex(log: seq<Entry>): nat {
    if |log| == 0 then 0 else log[|log| - 1].index
  }

  function LastTerm(log: seq<Entry>): nat {
    if |log| == 0 then 0 else log[|log| - 1].term
  }

  function Truncated(log: seq<Entry>, from: nat): seq<Entry> {
    if from < |log| then log[..from] else log
  }

  function Sliced(log: seq<Entry>, start: nat, end: nat): seq<Entry> {
    var lo := if start < 1 then 1 else start;
    var hi := if end > |log| then |log| else end;
    if lo >= hi then [] else log[lo..hi]
  }

  class Log {
    var entries: seq<Entry>

    constructor ()
      ensures entries == [DUMMY]
    {
      entries := [DUMMY];
    }

    method Append(more: seq<Entry>)
      modifies this
      ensures entries == old(entries) + more
    {
      entries := entries + more;
    }

    method Get(index: nat) returns (entry: Entry, ok: bool)
      ensures ok <==> Lookup(entries, index).Some?
      ensures ok ==> entry == Lookup(entries, index).value
      ensures !ok ==> entry == DUMMY
    {
      if index == 0 || index >= |entries| {
        return DUMMY, false;
      }
      return entries[index], true;
    }

    method Last() returns (index: nat, term: nat)
      ensures index == LastIndex(entries) && term == LastTerm(entries)
    {
      if |entries| == 0 {
        return 0, 0;
      }
      var last := entries[|entries| - 1];
      return last.index, last.term;
    }

    method Truncate(from: nat)
      modifies this
      ensures entries == Truncated(old(entries), from)
    {
      if from < |entries| {
        entries := entries[..from];
      }
    }

    method Slice(start: nat, end: nat) returns (out: seq<Entry>)
      ensures out == Sliced(entries, start, end)
    {
      var lo := if start < 1 then 1 else start;
      var hi := if end > |entries| then |entries| else end;
      if lo >= hi {
        return [];
      }
      out := entries[lo..hi];
    }
  }
}

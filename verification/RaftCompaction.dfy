/** How a compacted log with its sentinel represents the node's whole log. */
module RaftCompaction {
  import opened Tasks
  import opened RaftLog
  import opened RaftHistory
  import opened RaftStep

  /** `log` is the whole log `full` with everything up to the sentinel's index dropped. */
  ghost predicate Rep(log: seq<Entry>, full: Log) {
    && |log| > 0
    && First(log) <= |full|
    && Indexed(full)
    && log[0].term == TermAt(full, First(log))
    && log[1..] == full[First(log)..]
  }

  lemma RepBasics(log: seq<Entry>, full: Log)
    requires Rep(log, full)
    ensures WfLog(log) && Last(log) == |full|
    ensures log[|log| - 1].term == LastTerm(full)
  {
    forall j | 0 <= j < |log| ensures log[j].index == First(log) + j {
      if j > 0 {
        assert log[j] == log[1..][j - 1] == full[First(log) + j - 1];
      }
    }
    if |log| > 1 {
      assert log[|log| - 1] == log[1..][|log| - 2] == full[|full| - 1];
    }
  }

  lemma RepAt(log: seq<Entry>, full: Log, i: nat)
    requires Rep(log, full) && First(log) <= i <= |full|
    ensures WfLog(log) && Last(log) == |full|
    ensures TermOf(log, i) == TermAt(full, i)
    ensures i > First(log) ==> EntryAt(log, i) == full[i - 1]
  {
    RepBasics(log, full);
    if i > First(log) {
      assert log[i - First(log)] == log[1..][i - First(log) - 1];
    }
  }

  lemma RepSlice(log: seq<Entry>, full: Log, i: nat)
    requires Rep(log, full) && First(log) < i <= |full| + 1
    ensures WfLog(log) && Last(log) == |full|
    ensures SliceFrom(log, i) == full[i - 1..]
  {
    RepBasics(log, full);
    assert log[i - First(log)..] == log[1..][i - First(log) - 1..];
  }

  lemma RepAppend(log: seq<Entry>, full: Log, e: Entry)
    requires Rep(log, full) && e.index == |full| + 1
    ensures Rep(log + [e], full + [e])
  {
    assert (log + [e])[1..] == log[1..] + [e];
    assert (full + [e])[First(log)..] == full[First(log)..] + [e];
  }

  /** Moving the sentinel up to `i` drops entries but keeps the whole log. */
  lemma RepCompact(log: seq<Entry>, full: Log, i: nat)
    requires Rep(log, full) && First(log) <= i <= |full|
    ensures WfLog(log) && Last(log) == |full|
    ensures Rep([Entry(i, TermOf(log, i), None)] + SliceFrom(log, i + 1), full)
  {
    RepAt(log, full, i);
    RepSlice(log, full, i + 1);
    assert ([Entry(i, TermOf(log, i), None)] + full[i..])[1..] == full[i..];
  }

  /** A lone sentinel represents a log that is compacted away entirely. */
  lemma RepSentinel(full: Log, i: nat)
    requires Indexed(full) && i <= |full|
    ensures Rep([Entry(i, TermAt(full, i), None)] + [], full[..i])
  {
  }

  /** Replacing the tail after `prev` in the compacted log replaces it in the whole log. */
  lemma RepReplaceTail(log: seq<Entry>, full: Log, prev: nat, entries: seq<Entry>)
    requires Rep(log, full) && First(log) <= prev <= |full| && Follow(entries, prev)
    ensures |log| == |full| - First(log) + 1
    ensures Rep(log[..prev + 1 - First(log)] + entries, full[..prev] + entries)
  {
    assert |log[1..]| == |full[First(log)..]|;
    var cut := prev + 1 - First(log);
    var log', full' := log[..cut] + entries, full[..prev] + entries;
    assert log'[1..] == log[1..][..cut - 1] + entries;
    assert full'[First(log)..] == full[First(log)..][..cut - 1] + entries;
  }

  /** The step of `Merge` that skips an entry already held. */
  lemma MergeSkips(log: seq<Entry>, full: Log, prev: nat, entries: seq<Entry>)
    requires Rep(log, full) && First(log) <= prev < |full| && entries != [] && Follow(entries, prev)
    requires full[prev].term == entries[0].term
    ensures WfLog(log) && Last(log) == |full| && Follow(entries[1..], prev + 1)
    ensures Merge(log, entries) == Merge(log, entries[1..])
  {
    RepAt(log, full, prev + 1);
  }

  /** The step of `Merge` that takes the leader's entries. */
  lemma MergeTakes(log: seq<Entry>, full: Log, prev: nat, entries: seq<Entry>)
    requires Rep(log, full) && First(log) <= prev <= |full| && entries != [] && Follow(entries, prev)
    requires prev < |full| ==> full[prev].term != entries[0].term
    ensures WfLog(log) && Last(log) == |full|
    ensures Rep(Merge(log, entries), full[..prev] + entries)
  {
    hide Rep;
    RepBasics(log, full);
    RepReplaceTail(log, full, prev, entries);
    var log' := log[..prev + 1 - First(log)] + entries;
    if prev < |full| {
      RepAt(log, full, prev + 1);
      assert Merge(log, entries) == log';
    } else {
      assert log' == log + entries;
      assert Merge(log, entries) == log';
    }
  }

  /** Taking the leader's entries after a shared prefix: the whole log stays when it already
      starts with the leader's first `prev + |entries|` entries and becomes exactly those
      otherwise, whatever part of it is compacted. */
  lemma {:induction false} RepMerge(h: History, log: seq<Entry>, full: Log, lead: Log, prev: nat,
                                    entries: seq<Entry>, full': Log)
    requires Rep(log, full) && Matches(h, full) && Matches(h, lead) && Follow(entries, prev)
    requires First(log) <= prev <= |full| && prev + |entries| <= |lead|
    requires full[..prev] == lead[..prev] && entries == lead[prev..prev + |entries|]
    requires full' == if lead[..prev + |entries|] <= full then full else lead[..prev + |entries|]
    ensures WfLog(log) && Last(log) == |full|
    ensures Rep(Merge(log, entries), full')
    decreases |entries|
  {
    hide Rep, Matches;
    RepBasics(log, full);
    if entries != [] {
      if prev < |full| && full[prev].term == entries[0].term {
        SamePrefix(h, full, lead, prev + 1);
        MergeSkips(log, full, prev, entries);
        RepMerge(h, log, full, lead, prev + 1, entries[1..], full');
      } else {
        var l := lead[..prev + |entries|];
        assert l == full[..prev] + entries && l[prev] == entries[0];
        MergeTakes(log, full, prev, entries);
      }
    } else {
      assert lead[..prev + |entries|] <= full;
    }
  }
}

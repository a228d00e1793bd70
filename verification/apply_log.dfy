/** Applying windows of the log to the key-value store (`RaftServer::ExecuteCommands`). */
module ApplyLog {
  import opened RaftTypes

  type Store = map<string, string>

  /** The store after the commands at `start..end`, both included, were put into it in order. */
  function Applied(store: Store, log: seq<Entry>, start: int, end: int): Store
    decreases end - start
  {
    if end < start then store
    else Applied(store, log, start, end - 1)[KeyAt(log, end) := ValueAt(log, end)]
  }

  /** The last index in the window that writes the key, or -1. Windows start at 0 or later. */
  function LastWrite(log: seq<Entry>, start: nat, end: int, key: string): (w: int)
    ensures w == -1 || (start <= w <= end && KeyAt(log, w) == key)
    ensures forall i | w < i <= end && start <= i :: KeyAt(log, i) != key
    decreases end - start
  {
    if end < start then -1 else if KeyAt(log, end) == key then end else LastWrite(log, start, end - 1, key)
  }

  /** Whatever was in the store, a window leaves each key with its last write, and other keys alone. */
  lemma {:induction false} AppliedLookup(store: Store, log: seq<Entry>, start: nat, end: int, key: string)
    ensures var w, s := LastWrite(log, start, end, key), Applied(store, log, start, end);
      if w == -1 then key in s <==> key in store && (key in s ==> s[key] == store[key])
      else key in s && s[key] == ValueAt(log, w)
    decreases end - start
  {
    if start <= end {
      AppliedLookup(store, log, start, end - 1, key);
    }
  }

  /** Widening a window to the left only matters for keys the window itself does not write. */
  lemma LastWriteSplit(log: seq<Entry>, a: nat, b: nat, end: int, key: string)
    requires a <= b
    ensures LastWrite(log, a, end, key) ==
      if LastWrite(log, b, end, key) != -1 then LastWrite(log, b, end, key)
      else LastWrite(log, a, Min(b - 1, end), key)
  {}

  /**
   Overlapping windows converge: if the store holds `a..k` applied to any base, then applying `b..c`, which starts
   no later than right after `k` and ends no earlier than `k`, is the same as applying `a..c` once.
   */
  lemma OverlapConverges(base: Store, log: seq<Entry>, a: nat, b: nat, k: int, c: int)
    requires a <= b <= k + 1 && k <= c
    ensures Applied(Applied(base, log, a, k), log, b, c) == Applied(base, log, a, c)
  {
    var once, twice := Applied(base, log, a, c), Applied(Applied(base, log, a, k), log, b, c);
    forall key ensures key in once <==> key in twice
      ensures key in once ==> once[key] == twice[key]
    {
      AppliedLookup(base, log, a, c, key);
      AppliedLookup(base, log, a, k, key);
      AppliedLookup(Applied(base, log, a, k), log, b, c, key);
      hide Applied, LastWrite;
    }
  }

  predicate SameBut(x: Store, y: Store, key: string) {
    x - {key} == y - {key}
  }

  /** A follower starts its first window at the sentinel and a leader after it: only the key "NULL" tells. */
  lemma SentinelTells(store: Store, log: seq<Entry>, end: int)
    requires |log| > 0 && log[0] == SENTINEL && end >= 0
    ensures SameBut(Applied(store, log, 0, end), Applied(store, log, 1, end), "NULL")
  {
    var x, y := Applied(store, log, 0, end), Applied(store, log, 1, end);
    forall key | key != "NULL" ensures key in x <==> key in y
      ensures key in x ==> x[key] == y[key]
    {
      AppliedLookup(store, log, 0, end, key);
      AppliedLookup(store, log, 1, end, key);
      hide Applied, LastWrite;
    }
    assert (x - {"NULL"}).Keys == (y - {"NULL"}).Keys;
  }

  /** A window reads only the log up to its end. */
  lemma {:induction false} AppliedPrefix(store: Store, log: seq<Entry>, log': seq<Entry>, start: nat, end: int)
    requires end < |log| && end < |log'| && (end >= 0 ==> log[..end + 1] == log'[..end + 1])
    ensures Applied(store, log, start, end) == Applied(store, log', start, end)
    decreases end - start
  {
    if start <= end {
      assert log[end] == log[..end + 1][end] == log'[end];
      assert log[..end] == log[..end + 1][..end] == log'[..end];
      AppliedPrefix(store, log, log', start, end - 1);
    }
  }
}

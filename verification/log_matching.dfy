/** Logs grounded in the leaders' logs: the pure facts behind Log Matching. */
module LogMatching {
  import opened RaftTypes
  import opened RaftNode

  /** The log of the leader of each term so far; term 0 stands for the sentinel every log starts with. */
  type LeaderLogs = map<int, seq<Entry>>

  /** Up to each of its entries, the log is what the leader of that entry's term had. */
  predicate Grounded(tl: LeaderLogs, l: seq<Entry>) {
    && |l| > 0 && l[0] == SENTINEL
    && (forall i | 0 <= i < |l| :: l[i].term in tl && l[..i + 1] <= tl[l[i].term])
  }

  /** The two logs are the same up to `k`. */
  predicate Agree(a: seq<Entry>, b: seq<Entry>, k: int) {
    0 <= k <= |a| && k <= |b| && a[..k] == b[..k]
  }

  /** Terms in the log stay within the bound. */
  predicate Bounded(l: seq<Entry>, bound: int) {
    forall i | 0 <= i < |l| :: l[i].term <= bound
  }

  predicate LeaderLogsOk(tl: LeaderLogs) {
    && 0 in tl && tl[0] == [SENTINEL]
    && forall t | t in tl :: t >= 0 && Grounded(tl, tl[t]) && Bounded(tl[t], t)
  }

  predicate LeaderLogsGrow(tl: LeaderLogs, tl': LeaderLogs) {
    forall t | t in tl :: t in tl' && tl[t] <= tl'[t]
  }

  /** Equal terms at an index make two grounded logs equal up to that index. */
  lemma Matching(tl: LeaderLogs, a: seq<Entry>, b: seq<Entry>, i: nat)
    requires Grounded(tl, a) && Grounded(tl, b) && i < |a| && i < |b| && a[i].term == b[i].term
    ensures a[..i + 1] == b[..i + 1]
  {}

  lemma TermsRise(tl: LeaderLogs, l: seq<Entry>, i: nat, j: nat)
    requires LeaderLogsOk(tl) && Grounded(tl, l) && i <= j < |l|
    ensures 0 <= l[i].term <= l[j].term
  {
    var leader := tl[l[j].term];
    assert l[..j + 1][i] == leader[i];
    assert Bounded(leader, l[j].term);
  }

  /** Only the sentinel has term 0, so reading term 0 past the end of a log is not mistaken for an entry. */
  lemma SentinelOnly(tl: LeaderLogs, l: seq<Entry>, i: nat)
    requires LeaderLogsOk(tl) && Grounded(tl, l) && i < |l|
    ensures l[i].term == 0 <==> i == 0
    ensures l[i].term >= 0
  {
    TermsRise(tl, l, 0, i);
    if l[i].term == 0 {
      assert |l[..i + 1]| <= |tl[0]|;
    }
  }

  lemma GroundedGrows(tl: LeaderLogs, tl': LeaderLogs, l: seq<Entry>)
    requires Grounded(tl, l) && LeaderLogsGrow(tl, tl')
    ensures Grounded(tl', l)
  {}

  lemma WonLeaderLog(tl: LeaderLogs, term: int, l: seq<Entry>)
    requires LeaderLogsOk(tl) && term > 0 && term !in tl && Grounded(tl, l) && Bounded(l, term)
    ensures LeaderLogsOk(tl[term := l]) && Grounded(tl[term := l], l)
  {
    forall t | t in tl ensures Grounded(tl[term := l], tl[t]) {
      GroundedGrows(tl, tl[term := l], tl[t]);
    }
    GroundedGrows(tl, tl[term := l], l);
  }

  lemma ExtendedLeaderLog(tl: LeaderLogs, term: int, e: Entry)
    requires LeaderLogsOk(tl) && term > 0 && term in tl && e.term == term
    ensures var l := tl[term] + [e]; LeaderLogsOk(tl[term := l]) && Grounded(tl[term := l], l)
  {
    var l := tl[term] + [e];
    var tl' := tl[term := l];
    forall t | t in tl ensures Grounded(tl', tl[t]) {
      GroundedGrows(tl, tl', tl[t]);
    }
    forall i | 0 <= i < |l| ensures l[i].term in tl' && l[..i + 1] <= tl'[l[i].term] {
      if i < |l| - 1 {
        assert l[..i + 1] == tl[term][..i + 1];
      }
    }
  }

  lemma GroundedPrefix(tl: LeaderLogs, l: seq<Entry>, k: nat)
    requires Grounded(tl, l) && 0 < k <= |l|
    ensures Grounded(tl, l[..k])
  {
    forall i | 0 <= i < k ensures l[..k][i].term in tl && l[..k][..i + 1] <= tl[l[..k][i].term] {
      assert l[..k][..i + 1] == l[..i + 1];
    }
  }

  /**
   The consistency check. Reading 0 for an index past the end is sound: a check that passes proves that the log
   really holds that index, and agrees with the leader's log through it.
   */
  lemma CheckIsSound(tl: LeaderLogs, l: seq<Entry>, x: seq<Entry>, prev: nat)
    requires LeaderLogsOk(tl) && Grounded(tl, l) && Grounded(tl, x) && prev < |x|
    ensures TermAt(l, prev) == x[prev].term <==> prev < |l| && l[..prev + 1] == x[..prev + 1]
  {
    SentinelOnly(tl, x, prev);
    if prev < |l| {
      if l[prev].term == x[prev].term {
        Matching(tl, l, x, prev);
      } else {
        assert l[..prev + 1][prev] != x[..prev + 1][prev];
      }
    }
  }

  lemma Slice(x: seq<Entry>, start: nat, k: nat, i: nat, j: nat)
    requires start <= k <= |x| && i <= j <= k - start
    ensures x[start..k][i..j] == x[start + i..start + j]
  {
    assert forall n | 0 <= n < j - i :: x[start..k][i..j][n] == x[start..k][i + n] == x[start + i + n];
  }

  lemma PiecesMeet(l: seq<Entry>, x: seq<Entry>, c: nat, d: nat)
    requires Agree(l, x, c) && c <= d <= |x|
    ensures l[..c] + x[c..d] == x[..d]
  {
    assert x[..c] + x[c..d] == x[..d];
  }

  /**
   The repaired insertion of a stretch of a leader's log `x`, over a log that agrees with `x` before it: either
   the log held that stretch already and nothing changes, or the log becomes exactly the leader's prefix.
   */
  lemma {:induction false} InsertStretch(tl: LeaderLogs, l: seq<Entry>, x: seq<Entry>, start: nat, k: nat)
    requires Grounded(tl, l) && Grounded(tl, x)
    requires start <= k <= |x| && start <= |l| && l[..start] == x[..start]
    ensures InsertRepaired(l, start, x[start..k]) == if x[..k] <= l then l else x[..k]
    decreases k - start
  {
    hide Grounded;
    var es := x[start..k];
    assert Agree(l, x, start);
    PiecesMeet(l, x, start, k);
    if start == k {
      assert x[..k] <= l;
    } else if start == |l| {
      assert l[..start] == l;
    } else if l[start].term != x[start].term {
      assert x[..k][start] == x[start];
    } else {
      Matching(tl, l, x, start);
      assert es[1..] == x[start + 1..k];
      InsertStretch(tl, l, x, start + 1, k);
    }
  }

  /** The entries an insertion skips are those the log shares with the leader's; then it ends, or a term differs. */
  lemma {:induction false} KeptAgrees(tl: LeaderLogs, l: seq<Entry>, x: seq<Entry>, start: nat, k: nat)
    requires Grounded(tl, l) && Grounded(tl, x) && start <= k <= |x| && Agree(l, x, start)
    ensures var c := start + Kept(l, start, x[start..k]);
      c <= k && Agree(l, x, c) && (c == k || c == |l| || l[c].term != x[c].term)
    decreases k - start
  {
    if start < |l| && start < k && l[start].term == x[start].term {
      Matching(tl, l, x, start);
      assert x[start..k][1..] == x[start + 1..k];
      KeptAgrees(tl, l, x, start + 1, k);
    }
  }

  /** The torn log is the old one or a piece of the leader's, and keeps all that the two begin with. */
  ghost predicate TornBetween(l: seq<Entry>, x: seq<Entry>, torn: seq<Entry>) {
    && (torn == l || (torn != [] && torn <= x))
    && forall k :: Agree(l, x, k) ==> Agree(l, torn, k)
  }

  /** Up to the first difference, a piece of the leader's log agrees with the old log as far as the leader's does. */
  lemma PieceKeeps(l: seq<Entry>, x: seq<Entry>, c: nat, d: nat)
    requires Agree(l, x, c) && (c == |l| || (c < |l| && c < |x| && l[c] != x[c])) && c <= d <= |x|
    ensures forall k :: Agree(l, x, k) ==> Agree(l, x[..d], k)
  {
    forall k | Agree(l, x, k) ensures Agree(l, x[..d], k) {
      if k > c {
        assert l[..k][c] == x[..k][c];
      }
    }
  }

  lemma TornIsBetween(l: seq<Entry>, x: seq<Entry>, c: nat, torn: seq<Entry>, lines: nat)
    requires torn == l || (0 < c + lines <= |x| && torn == x[..c + lines])
    requires torn == l || forall k :: Agree(l, x, k) ==> Agree(l, x[..c + lines], k)
    ensures TornBetween(l, x, torn)
  {
    if torn == l {
      assert forall k :: Agree(l, x, k) ==> Agree(l, l, k);
    } else {
      hide Agree;
    }
  }

  /** A crash inside the insertion of a stretch of a leader's log loses nothing the two logs share. */
  lemma TornStretch(tl: LeaderLogs, l: seq<Entry>, x: seq<Entry>, start: nat, k: nat, lines: nat)
    requires Grounded(tl, l) && Grounded(tl, x) && 1 <= start <= k <= |x| && Agree(l, x, start)
    requires lines <= LinesToWrite(Repaired, l, start, x[start..k])
    ensures TornBetween(l, x, TornLog(Repaired, l, start, x[start..k], lines))
  {
    hide Grounded, Kept, TornBetween;
    var c := start + Kept(l, start, x[start..k]);
    KeptAgrees(tl, l, x, start, k);
    if c < k {
      Slice(x, start, k, c - start, c - start + lines);
      PiecesMeet(l, x, c, c + lines);
      PieceKeeps(l, x, c, c + lines);
      hide Agree;
    }
    hide TornLog;
    TornIsBetween(l, x, c, TornLog(Repaired, l, start, x[start..k], lines), lines);
  }
}

/** The load balancer's leader pointer (`LBNodeCommService::AssertLeadership`). */
module LeaderPointer {
  import opened RaftTypes

  datatype Announcement = Announcement(term: int, leader: NodeId)
  datatype Pointer = Pointer(term: int, leader: NodeId)

  /** Only a newer term moves the pointer. */
  function OnAnnouncement(p: Pointer, a: Announcement): Pointer {
    if p.term < a.term then Pointer(a.term, a.leader) else p
  }

  /** The pointer after announcements arrived in that order, some perhaps late or twice. */
  function Delivered(p: Pointer, anns: seq<Announcement>): Pointer {
    if anns == [] then p else OnAnnouncement(Delivered(p, anns[..|anns| - 1]), anns[|anns| - 1])
  }

  /** The recorded term is the highest it started from or heard of; the leader is one that announced that term. */
  lemma {:induction false} DeliveredIsHighest(p: Pointer, anns: seq<Announcement>)
    ensures var q := Delivered(p, anns);
      && p.term <= q.term && (forall a | a in anns :: a.term <= q.term)
      && (q == p || (p.term < q.term && Announcement(q.term, q.leader) in anns))
  {
    if anns != [] {
      var front := anns[..|anns| - 1];
      DeliveredIsHighest(p, front);
      assert anns == front + [anns[|anns| - 1]];
    }
  }

  /** When a term has one leader, neither order nor repetition matters: only which announcements arrived. */
  lemma DeliveryOrderIsIrrelevant(p: Pointer, anns: seq<Announcement>, others: seq<Announcement>)
    requires forall a :: a in anns <==> a in others
    requires forall a, b | a in anns && b in anns :: a.term == b.term ==> a == b
    ensures Delivered(p, anns) == Delivered(p, others)
  {
    DeliveredIsHighest(p, anns);
    DeliveredIsHighest(p, others);
  }
}

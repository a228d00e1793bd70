/** The load balancer's record of the nodes and of the leader (`LBNodeCommService`). */
module LoadBalancer {
  import opened RaftTypes
  import opened LeaderPointer

  class LeaderBoard {
    var leaderIP: NodeId
    var currentTerm: int
    var nodes: map<NodeId, Identity>

    constructor ()
      ensures Current() == Pointer(0, "") && nodes == map[]
    {
      leaderIP, currentTerm, nodes := "", 0, map[];
    }

    function Current(): Pointer
      reads this
    {
      Pointer(currentTerm, leaderIP)
    }

    /** The last accepted leader is listed as LEADER, and no other node is. */
    predicate OneLeader()
      reads this
    {
      && (currentTerm > 0 ==> leaderIP in nodes && nodes[leaderIP] == LEADER)
      && forall n | n in nodes && nodes[n] == LEADER :: n == leaderIP
    }

    method SetIdentityOfNode(identity: Identity, ip: NodeId)
      modifies this`nodes
      ensures nodes == old(nodes)[ip := identity]
    {
      nodes := nodes[ip := identity];
    }

    /**
     Only a newer term moves the pointer. Then the previous leader, if still listed, turns FOLLOWER and the new one
     turns LEADER, listed if it was not, and the reply lists every node; a stale announcement changes nothing.
     */
    method AssertLeadership(a: Announcement) returns (reply: set<NodeId>)
      modifies this
      ensures Current() == OnAnnouncement(old(Current()), a)
      ensures currentTerm == old(currentTerm) ==> nodes == old(nodes) && reply == {}
      ensures currentTerm > old(currentTerm) ==>
        && reply == nodes.Keys == old(nodes).Keys + {leaderIP} && nodes[leaderIP] == LEADER
        && (old(leaderIP) in nodes && old(leaderIP) != leaderIP ==> nodes[old(leaderIP)] == FOLLOWER)
        && forall n | n in old(nodes) && n != leaderIP && n != old(leaderIP) :: nodes[n] == old(nodes)[n]
      ensures old(OneLeader()) && old(currentTerm) >= 0 ==> OneLeader()
    {
      reply := {};
      if currentTerm < a.term {
        currentTerm := a.term;
        if leaderIP in nodes {
          SetIdentityOfNode(FOLLOWER, leaderIP);
        }
        leaderIP := a.leader;
        SetIdentityOfNode(LEADER, leaderIP);
        reply := nodes.Keys;
      }
    }
  }
}

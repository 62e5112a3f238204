/** Each cluster step, mapped to the core steps it stands for. */
module Steps {
  import opened Types
  import opened Protocol
  import opened Cluster
  import opened Simulation
  import opened Frames
  import C = Core
  import CoreSteps

  // ---------------------------------------------------------------- core steps are local

  lemma StutterLocal(k: C.State, v: Id, x: Link)
    requires v in k.replicas
    ensures Local(k, k, v, x)
  {
  }

  lemma BumpLocal(k: C.State, v: Id, t: nat, x: Link)
    requires C.ShapeOk(k) && C.VotesOk(k) && v in k.replicas && k.replicas[v].term < t
    ensures Local(k, C.Bump(k, v, t), v, x)
  {
  }

  lemma CastLocal(k: C.State, v: Id, c: Id, x: Link)
    requires C.ShapeOk(k) && C.VotesOk(k) && v in k.replicas && c != NOBODY && k.replicas[v].vote == NOBODY
    ensures Local(k, C.Cast(k, v, c), v, x)
  {
    CoreSteps.CastEvolves(k, v, c);
  }

  lemma LearnLocal(k: C.State, v: Id, c: nat, x: Link)
    requires v in k.replicas
    ensures Local(k, C.Learn(k, v, c), v, x)
  {
  }

  lemma TouchesTransitive(a: C.State, b: C.State, c: C.State, v: Id)
    requires C.Evolves(a, b) && C.Evolves(b, c) && Touches(a, b, v) && Touches(b, c, v)
    ensures Touches(a, c, v)
  {
    forall t, i | t in a.ledger && t in c.ledger && |a.ledger[t]| <= i < |c.ledger[t]|
      ensures c.ledger[t][i].term == t
    {
      assert t in b.ledger && Agree(b.ledger[t], c.ledger[t], |b.ledger[t]|);
    }
  }

  lemma LocalTransitive(a: C.State, b: C.State, c: C.State, v: Id, x: Link)
    requires Local(a, b, v, x) && Local(b, c, v, x)
    requires b.replicas[v].log == a.replicas[v].log || c.replicas[v] == b.replicas[v].(commit := c.replicas[v].commit)
    ensures Local(a, c, v, x)
  {
    assert b.replicas[v].log != a.replicas[v].log ==> Licensed(c, v, x);
    hide C.Evolves, Touches;
    CoreSteps.EvolvesTransitive(a, b, c);
    TouchesTransitive(a, b, c, v);
  }

  // ---------------------------------------------------------------- stepping down

  /** The core's side of learning that a term exists. */
  function Seen(k: C.State, v: Id, t: nat): C.State
    requires v in k.replicas
  {
    if k.replicas[v].term < t then C.Bump(k, v, t) else k
  }

  lemma SeenKeeps(k: C.State, v: Id, t: nat, x: Link)
    requires C.Inv(k) && v in k.replicas
    ensures C.Inv(Seen(k, v, t)) && Local(k, Seen(k, v, t), v, x)
  {
    if k.replicas[v].term < t {
      CoreSteps.BumpKeeps(k, v, t);
      BumpLocal(k, v, t, x);
    } else {
      StutterLocal(k, v, x);
    }
  }

  /** Leaving office keeps every proposal at one answer at most. */
  lemma LeavingSettles(k: C.State, k': C.State, n: Node, n': Node)
    requires C.Evolves(k, k') && ProposalsOk(k, n)
    requires n'.proposals == LeaveOffice(n).proposals && n'.waiters == LeaveOffice(n).waiters
    ensures ProposalsOk(k', n')
  {
    forall t | t in n'.proposals
      ensures |n'.proposals[t].sends| <= 1
      ensures Committed in n'.proposals[t].sends ==> Settled(k', n'.proposals[t].entry)
    {
      if t in n.waiters.Values {
        assert exists i :: i in n.waiters && n.waiters[i] == t;
      }
      if Committed in n.proposals[t].sends {
        SettledLasts(k, k', n.proposals[t].entry);
      }
    }
  }

  /** What a step of v starts from. */
  lemma About(s: State, sh: Shadow, v: Id)
    requires Inv(s, sh) && v in s.nodes
    ensures C.Inv(sh.core) && C.ShapeOk(sh.core) && v in sh.core.replicas && NodeOk(s, sh.core, v)
    ensures s.nodes[v].id == v && s.nodes[v].log.base == 0
    ensures OfficeOk(sh.core, s.nodes[v]) && ProposalsOk(sh.core, s.nodes[v])
    ensures NO_LINK !in s.exchanges && NOBODY !in s.nodes && NOBODY !in sh.core.members
    ensures s.nodes[v].commitIndex <= |s.nodes[v].log.entries|
    ensures sh.core.members == s.nodes.Keys
  {
    CoreSteps.KnownDecided(sh.core, v);
  }

  lemma StepDownNode(s: State, s': State, k: C.State, v: Id, t: nat)
    requires v in s.nodes && v in k.replicas && NodeOk(s, k, v) && OfficeOk(k, s.nodes[v])
    requires s'.nodes == s.nodes[v := StepDown(s.nodes[v], t)]
    ensures NodeOk(s', Seen(k, v, t), v) && OfficeOk(Seen(k, v, t), s'.nodes[v])
    ensures CandidacyOk(s.nodes[v], s'.nodes[v])
  {
  }

  lemma StepDownShape(n: Node, t: nat)
    ensures var n' := StepDown(n, t);
            && n'.proposals == LeaveOffice(n).proposals && n'.waiters == LeaveOffice(n).waiters
            && n'.peers == n.peers && n'.log == n.log && !n'.role.Leader?
  {
  }

  lemma StepDownStep(s: State, s': State, sh: Shadow, v: Id, t: nat) returns (k': C.State)
    requires Inv(s, sh) && v in s.nodes
    requires s' == s.(nodes := s.nodes[v := StepDown(s.nodes[v], t)], exchanges := s'.exchanges)
    requires forall link | link in s'.exchanges :: link in s.exchanges && s'.exchanges[link] == s.exchanges[link]
    ensures Inv(s', sh.(core := k')) && C.Evolves(sh.core, k')
  {
    hide Inv, C.Inv, C.Evolves, Local, NodeOk, OfficeOk, ProposalsOk, PeerOk, ExchangeOk, FlightOk, StepDown, LeaveOffice;
    About(s, sh, v);
    var k := sh.core;
    k' := Seen(k, v, t);
    SeenKeeps(k, v, t, NO_LINK);
    LocalEvolves(k, k', v, NO_LINK);
    StepDownNode(s, s', k, v, t);
    StepDownShape(s.nodes[v], t);
    LeavingSettles(k, k', s.nodes[v], s'.nodes[v]);
    OwnFlights(s, s', sh, v);
    Assemble(s, s', sh, k', v, NO_LINK);
  }

  lemma LocalEvolves(k: C.State, k': C.State, v: Id, x: Link)
    requires Local(k, k', v, x)
    ensures C.Evolves(k, k')
  {
  }
}

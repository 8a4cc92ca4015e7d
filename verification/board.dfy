/** The publish-lease board: advertisements, bids, and the interview that awards a task. */
module Board {
  import opened TaskTypes
  import opened Capability
  import opened ManagerModel
  import opened Manager
  import opened StateManager

  datatype Ad = Ad(id: Id, owner: string, spec: TaskSpec)

  /** The prompt stays behind when a task is advertised. */
  function AdFor(t: Id, owner: string, spec: TaskSpec): Ad { Ad(t, owner, spec.(prompt := "")) }

  /** The board as a value. */
  datatype Ads = Ads(mine: map<Id, Ad>, peers: map<Id, Ad>, bids: map<Id, seq<CV>>)

  const NoAds := Ads(map[], map[], map[])

  function BidsFor(b: Ads, t: Id): seq<CV> { if t in b.bids then b.bids[t] else [] }

  /** Putup's locked region; `task` is what the tracer has for t. */
  function Advertised(b: Ads, t: Id, owner: string, task: Option<TaskSpec>): Ads {
    if t in b.mine || task.None? || task.value.stage == ReduceStage then b
    else b.(mine := b.mine[t := AdFor(t, owner, task.value)])
  }

  /** Drawup's locked region. */
  function Posted(b: Ads, ad: Ad): Ads {
    if ad.id in b.peers then b else b.(peers := b.peers[ad.id := ad])
  }

  /** Handout's locked region. */
  function BidMade(b: Ads, t: Id, cv: CV): Ads {
    b.(bids := b.bids[t := BidsFor(b, t) + [cv]])
  }

  /** How an interview ends: nothing happens, nobody qualified and the board takes the task itself, or the best bid wins. */
  datatype Verdict = Nothing | SelfAssigned | Awarded(winner: CV)

  predicate Qualified(cv: CV, spec: TaskSpec) { Score(cv, spec) >= 0 }

  predicate BestBid(cv: CV, bids: seq<CV>, spec: TaskSpec) {
    && cv in bids && Qualified(cv, spec)
    && forall other | other in bids :: Score(other, spec) <= Score(cv, spec)
  }

  /** Whether the interview can end with v; `known` says the tracer has the task as an own task. */
  predicate Verdicts(b: Ads, t: Id, known: bool, v: Verdict) {
    if !known || BidsFor(b, t) == [] || t !in b.mine then v == Nothing
    else if forall cv | cv in BidsFor(b, t) :: !Qualified(cv, b.mine[t].spec) then v == SelfAssigned
    else v.Awarded? && BestBid(v.winner, BidsFor(b, t), b.mine[t].spec)
  }

  /** Only an award to a bidder takes the advertisement and its bids down. */
  function Interviewed(b: Ads, t: Id, v: Verdict): Ads {
    if v.Awarded? then b.(mine := b.mine - {t}, bids := b.bids - {t}) else b
  }

  /** Seconds the winner has to start. */
  const LEASE := 30

  /** Who gets the task: the winner, or the board's own peer. */
  function Assignee(v: Verdict, self: string): Option<string> {
    match v
    case Nothing => None
    case SelfAssigned => Some(self)
    case Awarded(winner) => Some(winner.peer)
  }

  class TaskBoard {
    var myAds: map<Id, Ad>
    var peerAds: map<Id, Ad>
    var bids: map<Id, seq<CV>>

    constructor ()
      ensures Value() == NoAds
    {
      myAds, peerAds, bids := map[], map[], map[];
    }

    function Value(): Ads
      reads this
    {
      Ads(myAds, peerAds, bids)
    }

    /** Putup up to its unlock; the new advertisement, if any, goes to the peers and to Drawup. */
    method Advertise(t: Id, owner: string, task: Option<TaskSpec>) returns (ad: Option<Ad>)
      modifies `myAds
      ensures t !in old(myAds) && task.Some? && task.value.stage != ReduceStage ==>
        ad == Some(Ad(t, owner, task.value.(prompt := ""))) && myAds == old(myAds)[t := ad.value]
      ensures t in old(myAds) || task.None? || task.value.stage == ReduceStage ==> ad == None && myAds == old(myAds)
      ensures Value() == Advertised(old(Value()), t, owner, task)
    {
      if t in myAds || task.None? || task.value.stage == ReduceStage { return None; }
      myAds := myAds[t := AdFor(t, owner, task.value)];
      return Some(myAds[t]);
    }

    /** Drawup up to its unlock; `isNew` says whether to bid. */
    method ListAd(ad: Ad) returns (isNew: bool)
      modifies `peerAds
      ensures isNew <==> ad.id !in old(peerAds)
      ensures peerAds == if isNew then old(peerAds)[ad.id := ad] else old(peerAds)
      ensures Value() == Posted(old(Value()), ad)
    {
      if ad.id in peerAds { return false; }
      peerAds := peerAds[ad.id := ad];
      return true;
    }

    /** Handout up to its unlock; the first bid calls for an interview. */
    method TakeBid(t: Id, cv: CV) returns (first: bool)
      modifies `bids
      ensures first <==> t !in old(bids) || old(bids)[t] == []
      ensures bids == old(bids)[t := (if t in old(bids) then old(bids)[t] else []) + [cv]]
      ensures Value() == BidMade(old(Value()), t, cv)
    {
      var before := if t in bids then bids[t] else [];
      bids := bids[t := before + [cv]];
      return |bids[t]| == 1;
    }

    /** The qualified candidates with their scores, in the order of their bids. */
    method Rank(candidates: seq<CV>, spec: TaskSpec) returns (ranked: seq<(CV, int)>)
      ensures forall e | e in ranked :: e.0 in candidates && e.1 == Score(e.0, spec) && Qualified(e.0, spec)
      ensures forall cv | cv in candidates && Qualified(cv, spec) :: (cv, Score(cv, spec)) in ranked
    {
      ranked := [];
      for i := 0 to |candidates|
        invariant forall e | e in ranked :: e.0 in candidates && e.1 == Score(e.0, spec) && Qualified(e.0, spec)
        invariant forall cv | cv in candidates[..i] && Qualified(cv, spec) :: (cv, Score(cv, spec)) in ranked
      {
        var score := Match(candidates[i], spec);
        if score >= 0 { ranked := ranked + [(candidates[i], score)]; }
      }
      assert candidates[..|candidates|] == candidates;
    }

    /** Some entry of the highest score: what sorting by score puts first. */
    method Top(ranked: seq<(CV, int)>) returns (winner: CV)
      requires ranked != []
      ensures exists k | 0 <= k < |ranked| :: winner == ranked[k].0 && forall j | 0 <= j < |ranked| :: ranked[j].1 <= ranked[k].1
    {
      ghost var top := HighestScore(ranked);
      assert forall j | 0 <= j < |ranked| :: ranked[j].1 <= ranked[top].1;
      var k :| 0 <= k < |ranked| && forall j | 0 <= j < |ranked| :: ranked[j].1 <= ranked[k].1;
      winner := ranked[k].0;
    }

    /** The verdict on the bids as they are. */
    method Judge(t: Id, known: bool) returns (v: Verdict)
      ensures Verdicts(Value(), t, known, v)
      ensures v.Nothing? <==> !known || t !in myAds || t !in bids || bids[t] == []
      ensures v.SelfAssigned? ==> forall cv | cv in bids[t] :: Score(cv, myAds[t].spec) < 0
      ensures v.Awarded? ==> v.winner in bids[t] && Score(v.winner, myAds[t].spec) >= 0
      ensures v.Awarded? ==> forall cv | cv in bids[t] :: Score(cv, myAds[t].spec) <= Score(v.winner, myAds[t].spec)
    {
      if !known { return Nothing; }
      var candidates := if t in bids then bids[t] else [];
      if |candidates| == 0 || t !in myAds { return Nothing; }
      var ranked := Rank(candidates, myAds[t].spec);
      if |ranked| == 0 { return SelfAssigned; }
      assert ranked[0] in ranked;
      var winner := Top(ranked);
      return Awarded(winner);
    }

    method TakeDown(t: Id, manager: TaskStateManager, ghost s: State)
      requires manager.Shows(s)
      modifies `myAds, `bids
      ensures Value() == Ads(old(myAds) - {t}, peerAds, old(bids) - {t}) && manager.Shows(s)
    {
      bids := bids - {t};
      myAds := myAds - {t};
      forall p | p in manager.plans ensures manager.plans[p].Value() == s.plans[p] {
        manager.plans[p].Untouched();
      }
    }

    predicate HeldBy(node: TaskNode, peer: string, until: int)
      reads node
    {
      node.state == Claimed && node.claimedBy == peer && node.expiresAt == until
    }

    /** The assignee claims the task; only an award to a bidder takes the advertisement down. */
    method Carry(t: Id, v: Verdict, peer: string, manager: TaskStateManager, now: int, ghost s: State)
      requires manager.Shows(s)
      modifies `myAds, `bids, manager`claimed, manager.NodeObjects()
      ensures t in manager.nodes && old(manager.nodes[t].state) == Ready ==> HeldBy(manager.nodes[t], peer, now + 30)
      ensures Value() == Interviewed(old(Value()), t, v) && manager.Shows(DoClaim(s, t, peer, now + LEASE).st)
    {
      hide manager.Shows, DoClaim;
      manager.ObjectsOf(t, t, s);
      var claimed, watchdog := manager.Claim(0, t, peer, LEASE, now, s);
      if v.Awarded? {
        TakeDown(t, manager, DoClaim(s, t, peer, now + LEASE).st);
      }
    }

    /** The interview: the winner, or the board itself, claims the task for half a minute and is sent the assignment. */
    method Interview(t: Id, known: bool, self: string, manager: TaskStateManager, now: int, ghost s: State)
      returns (v: Verdict, assignee: Option<string>)
      requires manager.Shows(s)
      modifies `myAds, `bids, manager`claimed, manager.NodeObjects()
      ensures Verdicts(old(Value()), t, known, v) && Value() == Interviewed(old(Value()), t, v)
      ensures v.Nothing? <==> !known || t !in old(myAds) || t !in old(bids) || old(bids)[t] == []
      ensures v.SelfAssigned? ==> forall cv | cv in old(bids)[t] :: Score(cv, old(myAds)[t].spec) < 0
      ensures v.Awarded? ==> v.winner in old(bids)[t] && Score(v.winner, old(myAds)[t].spec) >= 0
      ensures v.Awarded? ==> forall cv | cv in old(bids)[t] :: Score(cv, old(myAds)[t].spec) <= Score(v.winner, old(myAds)[t].spec)
      ensures v.Awarded? ==> assignee == Some(v.winner.peer) && myAds == old(myAds) - {t} && bids == old(bids) - {t}
      ensures v.SelfAssigned? ==> assignee == Some(self) && myAds == old(myAds) && bids == old(bids)
      ensures v.Nothing? ==> assignee == None && myAds == old(myAds) && bids == old(bids)
      ensures assignee.Some? && t in manager.nodes && old(manager.nodes[t].state) == Ready ==>
        HeldBy(manager.nodes[t], assignee.value, now + 30)
      ensures manager.Shows(if assignee.Some? then DoClaim(s, t, assignee.value, now + LEASE).st else s)
    {
      hide manager.Shows, DoClaim, Verdicts;
      v := Judge(t, known);
      assignee := Assignee(v, self);
      if assignee.Some? { Carry(t, v, assignee.value, manager, now, s); }
    }
  }

  ghost function HighestScore(ranked: seq<(CV, int)>): (k: nat)
    requires ranked != []
    ensures k < |ranked| && forall j | 0 <= j < |ranked| :: ranked[j].1 <= ranked[k].1
  {
    if |ranked| == 1 then 0 else
      var k := HighestScore(ranked[..|ranked| - 1]);
      if ranked[|ranked| - 1].1 > ranked[k].1 then |ranked| - 1 else k
  }
}

/** Runs of the board: its locked regions in any order, with the interview a separate step after the first bid. */
module BoardRuns {
  import opened TaskTypes
  import opened Capability
  import opened Board

  /** `pending` counts the interviews called for and not yet held; the other counters are history: advertisements
      inserted by Putup, awards to a bidder, and tasks the board took itself. */
  datatype Run = Run(board: Ads, pending: map<Id, int>, inserted: map<Id, int>, won: map<Id, int>, self: map<Id, int>)

  const Start := Run(NoAds, map[], map[], map[], map[])

  datatype Act =
    | Putup(t: Id, owner: string, task: Option<TaskSpec>)
    | Drawup(ad: Ad)
    | Handout(t: Id, cv: CV)
    | Interview(t: Id, known: bool, verdict: Verdict)

  function Plus(m: map<Id, int>, t: Id, n: int): map<Id, int> {
    m[t := Count(m, t) + n]
  }

  /** An interview is held only when a first bid called for it. */
  predicate Can(r: Run, act: Act) {
    act.Interview? ==> Count(r.pending, act.t) > 0 && Verdicts(r.board, act.t, act.known, act.verdict)
  }

  function Acted(r: Run, act: Act): Run {
    match act
    case Putup(t, owner, task) =>
      var b := Advertised(r.board, t, owner, task);
      r.(board := b, inserted := if b == r.board then r.inserted else Plus(r.inserted, t, 1))
    case Drawup(ad) => r.(board := Posted(r.board, ad))
    case Handout(t, cv) =>
      r.(board := BidMade(r.board, t, cv), pending := if BidsFor(r.board, t) == [] then Plus(r.pending, t, 1) else r.pending)
    case Interview(t, known, v) =>
      r.(board := Interviewed(r.board, t, v), pending := Plus(r.pending, t, -1),
         won := if v.Awarded? then Plus(r.won, t, 1) else r.won,
         self := if v.SelfAssigned? then Plus(r.self, t, 1) else r.self)
  }

  predicate Runs(r: Run, acts: seq<Act>)
    decreases |acts|
  {
    acts == [] || (Runs(r, acts[..|acts| - 1]) && Can(Done(r, acts[..|acts| - 1]), acts[|acts| - 1]))
  }

  function Done(r: Run, acts: seq<Act>): Run
    decreases |acts|
  {
    if acts == [] then r else Acted(Done(r, acts[..|acts| - 1]), acts[|acts| - 1])
  }

  // ── One award per advertisement ─────────────────────────────────────

  function AsInt(b: bool): int { if b then 1 else 0 }

  /** The books of one task: an advertisement is up or was won; at most one interview is pending, and then there are bids;
      a task the board took itself stays advertised, with bids that will never be looked at. */
  ghost predicate Books(r: Run, t: Id) {
    && 0 <= Count(r.pending, t) <= 1
    && (Count(r.pending, t) == 1 ==> BidsFor(r.board, t) != [])
    && Count(r.inserted, t) == Count(r.won, t) + AsInt(t in r.board.mine)
    && 0 <= Count(r.won, t)
    && 0 <= Count(r.self, t) <= 1
    && (Count(r.self, t) == 1 ==> t in r.board.mine && Spent(r, t))
  }

  /** There are bids but nobody will interview them. */
  predicate Spent(r: Run, t: Id) {
    BidsFor(r.board, t) != [] && Count(r.pending, t) == 0
  }

  lemma BooksKept(r: Run, act: Act, t: Id)
    requires Can(r, act) && Books(r, t)
    ensures Books(Acted(r, act), t)
  {
  }

  lemma {:induction false} BooksAlways(acts: seq<Act>, t: Id)
    requires Runs(Start, acts)
    ensures Books(Done(Start, acts), t)
    decreases |acts|
  {
    if acts != [] {
      BooksAlways(acts[..|acts| - 1], t);
      BooksKept(Done(Start, acts[..|acts| - 1]), acts[|acts| - 1], t);
    }
  }

  /** In every run a task has at most one pending interview, and its awards, the board's own included, never exceed its
      advertisements; they lag behind by at most the one that is up. */
  lemma OneAwardPerAd(acts: seq<Act>, t: Id)
    requires Runs(Start, acts)
    ensures var r := Done(Start, acts);
      && 0 <= Count(r.pending, t) <= 1
      && Count(r.won, t) + Count(r.self, t) <= Count(r.inserted, t) <= Count(r.won, t) + 1
      && (t in r.board.mine <==> Count(r.inserted, t) == Count(r.won, t) + 1)
  {
    BooksAlways(acts, t);
  }

  // ── Bids that came to nothing are final ─────────────────────────────

  lemma SpentKept(r: Run, act: Act, t: Id)
    requires Can(r, act) && Spent(r, t)
    ensures var r' := Acted(r, act);
      Spent(r', t) && Count(r'.won, t) == Count(r.won, t) && Count(r'.self, t) == Count(r.self, t)
      && (t in r.board.mine ==> t in r'.board.mine)
  {
  }

  /** Once an interview has left bids behind, because the board took the task itself, or the tracer or the board did not
      know it yet, no later bid is interviewed: the task is never awarded again and its advertisement never comes down. */
  lemma {:induction false} SpentForever(r: Run, acts: seq<Act>, t: Id)
    requires Runs(r, acts) && Spent(r, t)
    ensures var r' := Done(r, acts);
      Spent(r', t) && Count(r'.won, t) == Count(r.won, t) && Count(r'.self, t) == Count(r.self, t)
      && (t in r.board.mine ==> t in r'.board.mine)
    decreases |acts|
  {
    if acts != [] {
      SpentForever(r, acts[..|acts| - 1], t);
      SpentKept(Done(r, acts[..|acts| - 1]), acts[|acts| - 1], t);
    }
  }

  /** An interview leaves its bids spent exactly when it does not award the task to a bidder. */
  lemma FruitlessIsSpent(acts: seq<Act>, t: Id, known: bool, verdict: Verdict)
    requires Runs(Start, acts) && Can(Done(Start, acts), Interview(t, known, verdict))
    ensures Spent(Acted(Done(Start, acts), Interview(t, known, verdict)), t) <==> !verdict.Awarded?
  {
    BooksAlways(acts, t);
  }

  // ── The best of the bids handed out ─────────────────────────────────

  predicate Awards(act: Act, t: Id) { act.Interview? && act.t == t && act.verdict.Awarded? }

  /** Where the acts since the last award of t begin. */
  function SinceAward(acts: seq<Act>, t: Id): (r: nat)
    ensures r <= |acts| && (r > 0 ==> Awards(acts[r - 1], t))
    ensures forall k | r <= k < |acts| :: !Awards(acts[k], t)
  {
    if acts == [] then 0
    else if Awards(acts[|acts| - 1], t) then |acts|
    else SinceAward(acts[..|acts| - 1], t)
  }

  /** The bids handed out for t, in order. */
  function HandedOut(acts: seq<Act>, t: Id): seq<CV> {
    if acts == [] then []
    else if acts[0].Handout? && acts[0].t == t then [acts[0].cv] + HandedOut(acts[1..], t)
    else HandedOut(acts[1..], t)
  }

  lemma {:induction false} HandedOutSnoc(acts: seq<Act>, act: Act, t: Id)
    ensures HandedOut(acts + [act], t) == HandedOut(acts, t) + HandedOut([act], t)
  {
    if acts == [] {
      assert [] + [act] == [act];
    } else {
      HandedOutSnoc(acts[1..], act, t);
      assert (acts + [act])[1..] == acts[1..] + [act];
    }
  }

  /** The bids on a task are those handed out since it was last awarded, all of them and in order. */
  lemma {:induction false} BidsAreHandouts(acts: seq<Act>, t: Id)
    requires Runs(Start, acts)
    ensures BidsFor(Done(Start, acts).board, t) == HandedOut(acts[SinceAward(acts, t)..], t)
    decreases |acts|
  {
    if acts != [] {
      var before, act := acts[..|acts| - 1], acts[|acts| - 1];
      BidsAreHandouts(before, t);
      if Awards(act, t) {
        assert acts[|acts|..] == [];
      } else {
        var r := SinceAward(before, t);
        assert acts[r..] == before[r..] + [act];
        HandedOutSnoc(before[r..], act, t);
        OneMoreBid(Done(Start, before), act, t);
      }
    }
  }

  lemma OneMoreBid(r: Run, act: Act, t: Id)
    requires !Awards(act, t)
    ensures BidsFor(Acted(r, act).board, t) == BidsFor(r.board, t) + HandedOut([act], t)
  {
    assert [act][1..] == [];
  }

  /** Every award goes to a bid handed out since the last one that qualifies and that no other of them beats; the board
      takes a task itself only if there were bids and none of them qualifies. */
  lemma AwardIsBest(acts: seq<Act>, t: Id, known: bool, v: Verdict)
    requires Runs(Start, acts) && Can(Done(Start, acts), Interview(t, known, v))
    ensures var bids, mine := HandedOut(acts[SinceAward(acts, t)..], t), Done(Start, acts).board.mine;
      && (v.Awarded? ==> t in mine && v.winner in bids && Score(v.winner, mine[t].spec) >= 0)
      && (v.Awarded? ==> forall cv | cv in bids :: Score(cv, mine[t].spec) <= Score(v.winner, mine[t].spec))
      && (v.SelfAssigned? ==> t in mine && bids != [] && forall cv | cv in bids :: Score(cv, mine[t].spec) < 0)
      && (v.Nothing? <==> !known || bids == [] || t !in mine)
  {
    BidsAreHandouts(acts, t);
  }

  // ── What is advertised ──────────────────────────────────────────────

  /** Putup finds a task it may advertise. */
  predicate Offers(act: Act, t: Id) {
    act.Putup? && act.t == t && act.task.Some? && act.task.value.stage != ReduceStage
  }

  /** The first of the acts that offers t, if any. */
  predicate FirstOffer(acts: seq<Act>, t: Id, k: int) {
    0 <= k < |acts| && Offers(acts[k], t) && forall j | 0 <= j < k :: !Offers(acts[j], t)
  }

  /** What is advertised for t is what was offered first, without its prompt, and nothing if nothing was. */
  ghost predicate Advertises(mine: map<Id, Ad>, since: seq<Act>, t: Id) {
    && (t in mine <==> exists k :: FirstOffer(since, t, k))
    && forall k | FirstOffer(since, t, k) :: t in mine && mine[t] == Ad(t, since[k].owner, since[k].task.value.(prompt := ""))
  }

  /** A task is advertised exactly if it was offered since it was last awarded, and as it was offered first; later offers
      change nothing. */
  lemma {:induction false} AdIsFirstOffer(acts: seq<Act>, t: Id)
    requires Runs(Start, acts)
    ensures Advertises(Done(Start, acts).board.mine, acts[SinceAward(acts, t)..], t)
    decreases |acts|
  {
    if acts != [] {
      var before, act := acts[..|acts| - 1], acts[|acts| - 1];
      AdIsFirstOffer(before, t);
      if Awards(act, t) {
        assert acts[|acts|..] == [];
      } else {
        var r := SinceAward(before, t);
        assert acts[r..] == before[r..] + [act];
        hide Advertises, Acted;
        OneMoreOffer(Done(Start, before), before[r..], act, t);
      }
    }
  }

  lemma OneMoreOffer(r: Run, since: seq<Act>, act: Act, t: Id)
    requires !Awards(act, t) && Advertises(r.board.mine, since, t)
    ensures Advertises(Acted(r, act).board.mine, since + [act], t)
  {
    var all, mine := since + [act], Acted(r, act).board.mine;
    OfferTakes(r, act, t);
    hide Acted;
    assert forall k | 0 <= k < |since| :: all[k] == since[k];
    if k :| FirstOffer(since, t, k) {
      assert FirstOffer(all, t, k);
    } else if Offers(act, t) {
      NoneYet(since, t);
      assert FirstOffer(all, t, |since|);
    } else {
      NoneYet(since, t);
    }
  }

  /** Without a first offer there is none. */
  lemma {:induction false} NoneYet(acts: seq<Act>, t: Id)
    requires forall k :: !FirstOffer(acts, t, k)
    ensures forall k | 0 <= k < |acts| :: !Offers(acts[k], t)
  {
    if acts != [] {
      var before, n := acts[..|acts| - 1], |acts| - 1;
      forall k ensures !FirstOffer(before, t, k) {
        if FirstOffer(before, t, k) { assert FirstOffer(acts, t, k); }
      }
      NoneYet(before, t);
      assert forall k | 0 <= k < n :: before[k] == acts[k];
      assert !FirstOffer(acts, t, n);
    }
  }

  lemma OfferTakes(r: Run, act: Act, t: Id)
    requires !Awards(act, t)
    ensures var mine, after := r.board.mine, Acted(r, act).board.mine;
      && (t in mine ==> t in after && after[t] == mine[t])
      && (t !in mine ==> (t in after <==> Offers(act, t)))
      && (t !in mine && t in after ==> after[t] == Ad(t, act.owner, act.task.value.(prompt := "")))
  {
  }

  predicate FirstAd(acts: seq<Act>, id: Id, k: int) {
    0 <= k < |acts| && acts[k].Drawup? && acts[k].ad.id == id && forall j | 0 <= j < k && acts[j].Drawup? :: acts[j].ad.id != id
  }

  /** A peer's task stays listed as it was advertised first. */
  lemma {:induction false} FirstAdStays(acts: seq<Act>, k: nat)
    requires Runs(Start, acts) && k < |acts| && acts[k].Drawup? && FirstAd(acts, acts[k].ad.id, k)
    ensures var ad, peers := acts[k].ad, Done(Start, acts).board.peers; ad.id in peers && peers[ad.id] == ad
    decreases |acts|
  {
    var before, n := acts[..|acts| - 1], |acts| - 1;
    PeersKept(Done(Start, before), acts[n]);
    hide Acted, Can;
    if k < n {
      FirstAdStays(before, k);
    } else {
      NotListedYet(before, acts[k].ad.id);
    }
  }

  lemma PeersKept(r: Run, act: Act)
    ensures forall id | id in r.board.peers :: id in Acted(r, act).board.peers && Acted(r, act).board.peers[id] == r.board.peers[id]
    ensures act.Drawup? && act.ad.id !in r.board.peers ==>
      act.ad.id in Acted(r, act).board.peers && Acted(r, act).board.peers[act.ad.id] == act.ad
  {
  }

  lemma {:induction false} NotListedYet(acts: seq<Act>, id: Id)
    requires Runs(Start, acts) && forall j | 0 <= j < |acts| && acts[j].Drawup? :: acts[j].ad.id != id
    ensures id !in Done(Start, acts).board.peers
    decreases |acts|
  {
    if acts != [] { NotListedYet(acts[..|acts| - 1], id); }
  }

  // ── What peers are told ─────────────────────────────────────────────

  predicate Discreet(r: Run) {
    forall t | t in r.board.mine ::
      r.board.mine[t].id == t && r.board.mine[t].spec.prompt == "" && r.board.mine[t].spec.stage != ReduceStage
  }

  lemma DiscreetKept(r: Run, act: Act)
    requires Discreet(r)
    ensures Discreet(Acted(r, act))
  {
  }

  /** No advertisement ever carries a prompt or offers a reduce node. */
  lemma {:induction false} AdsAreDiscreet(acts: seq<Act>)
    requires Runs(Start, acts)
    ensures Discreet(Done(Start, acts))
    decreases |acts|
  {
    if acts != [] {
      AdsAreDiscreet(acts[..|acts| - 1]);
      DiscreetKept(Done(Start, acts[..|acts| - 1]), acts[|acts| - 1]);
    }
  }
}

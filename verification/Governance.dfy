/** Votes and village law (resolveVotes, resolveProposal and appendNorm in internal/sim/governance.go,
    relations in internal/sim/social.go).
  */
module Governance {

  const REL_MIN := -1000
  const REL_MAX := 1000
  const ALIGN_AFFECTION := 8
  const OPPOSE_TRUST := 10
  const SELF_INTEREST_BONUS := 400

  datatype Edge = Edge(trust: int, affection: int)

  datatype Relation = Relation(from: int, to: int, edge: Edge)

  datatype NormKind = Curfew | RepayDebts | Exile

  datatype Norm = Norm(id: int, kind: NormKind, target: int, param: int, proposer: int, active: bool, amended: bool)

  datatype ProposalKind = AddCurfew | AddRepayDebts | Amend | Repeal | CastOut | OtherProposal(name: nat)

  datatype Proposal = Proposal(kind: ProposalKind, normId: int, target: int, param: int, proposer: int)

  // ---- relations ----

  predicate Joins(r: Relation, a: int, b: int) {
    r.from == a && r.to == b
  }

  function EdgeIndex(rels: seq<Relation>, a: int, b: int): (i: nat)
    ensures i <= |rels| && (i < |rels| ==> Joins(rels[i], a, b))
    ensures forall j :: 0 <= j < i ==> !Joins(rels[j], a, b)
  {
    if rels == [] then 0
    else
      var i := EdgeIndex(rels[..|rels| - 1], a, b);
      if i < |rels| - 1 then i else if Joins(rels[|rels| - 1], a, b) then i else |rels|
  }

  /** RelationBetween: zero values when the pair was never touched. */
  function Between(rels: seq<Relation>, a: int, b: int): Edge {
    var i := EdgeIndex(rels, a, b);
    if i < |rels| then rels[i].edge else Edge(0, 0)
  }

  /** Writes through the found-or-created relation. */
  function SetEdge(rels: seq<Relation>, a: int, b: int, e: Edge): seq<Relation> {
    var i := EdgeIndex(rels, a, b);
    if i < |rels| then rels[i := Relation(a, b, e)] else rels + [Relation(a, b, e)]
  }

  lemma IndexIs(rels: seq<Relation>, a: int, b: int, i: nat)
    requires i <= |rels| && (i < |rels| ==> Joins(rels[i], a, b))
    requires forall j :: 0 <= j < i ==> !Joins(rels[j], a, b)
    ensures EdgeIndex(rels, a, b) == i
  {
  }

  lemma SetEdgeChangesOnePair(rels: seq<Relation>, a: int, b: int, e: Edge, x: int, y: int)
    ensures Between(SetEdge(rels, a, b, e), x, y) == if x == a && y == b then e else Between(rels, x, y)
  {
    var i := EdgeIndex(rels, a, b);
    var k := EdgeIndex(rels, x, y);
    var rels' := SetEdge(rels, a, b, e);
    assert forall j :: 0 <= j < |rels| && j != i ==> rels'[j] == rels[j];
    if x == a && y == b {
      IndexIs(rels', x, y, i);
    } else {
      assert i < |rels'| && Joins(rels'[i], a, b);
      IndexIs(rels', x, y, if k == |rels| then |rels'| else k);
    }
  }

  function Clamp(v: int): (c: int)
    ensures REL_MIN <= c <= REL_MAX
  {
    if v < REL_MIN then REL_MIN else if v > REL_MAX then REL_MAX else v
  }

  function Warmed(e: Edge): Edge {
    e.(affection := Clamp(e.affection + ALIGN_AFFECTION))
  }

  function Cooled(e: Edge): Edge {
    e.(trust := Clamp(e.trust - OPPOSE_TRUST))
  }

  // ---- votes ----

  datatype State = State(
    dead: seq<bool>, relations: seq<Relation>, norms: seq<Norm>, nextNormId: nat,
    violated: seq<(int, int)>)   // (norm id, agent) for every violation on record

  predicate Living(s: State, v: int) {
    0 <= v < |s.dead| && !s.dead[v]
  }

  predicate InRange(s: State, v: int) {
    0 <= v < |s.dead|
  }

  function NormIndex(norms: seq<Norm>, id: int): (i: nat)
    ensures i <= |norms| && (i < |norms| ==> norms[i].id == id)
    ensures forall j :: 0 <= j < i ==> norms[j].id != id
  {
    if norms == [] then 0
    else
      var i := NormIndex(norms[..|norms| - 1], id);
      if i < |norms| - 1 then i else if norms[|norms| - 1].id == id then i else |norms|
  }

  /** Division that truncates toward zero. */
  function Quarter(v: int): int {
    if v >= 0 then v / 4 else -((-v) / 4)
  }

  function Warmth(s: State, a: int, b: int): int {
    var e := Between(s.relations, a, b);
    e.trust + e.affection
  }

  function VoteScore(s: State, voter: int, p: Proposal): int {
    var base := Warmth(s, voter, p.proposer);
    match p.kind
    case Amend | Repeal =>
      base + if NormIndex(s.norms, p.normId) < |s.norms| && (p.normId, voter) in s.violated
             then SELF_INTEREST_BONUS else 0
    case CastOut => -Warmth(s, voter, p.target) + Quarter(base)
    case _ => base
  }

  /** A living attendee, except the subject of an exile. */
  predicate Eligible(s: State, p: Proposal, v: int) {
    Living(s, v) && !(p.kind == CastOut && v == p.target)
  }

  predicate Favors(s: State, p: Proposal, v: int) {
    v == p.proposer || VoteScore(s, v, p) >= 0
  }

  /** The attendees on one side, in order. */
  function Side(s: State, p: Proposal, attendees: seq<int>, yea: bool): seq<int> {
    if attendees == [] then []
    else
      var v := attendees[|attendees| - 1];
      Side(s, p, attendees[..|attendees| - 1], yea) +
      if Eligible(s, p, v) && Favors(s, p, v) == yea then [v] else []
  }

  method ResolveVotes(s: State, p: Proposal, attendees: seq<int>) returns (yeas: seq<int>, nays: seq<int>)
    ensures yeas == Side(s, p, attendees, true) && nays == Side(s, p, attendees, false)
  {
    yeas, nays := [], [];
    for i := 0 to |attendees|
      invariant yeas == Side(s, p, attendees[..i], true) && nays == Side(s, p, attendees[..i], false)
    {
      assert attendees[..i + 1][..i] == attendees[..i];
      var v := attendees[i];
      if v < 0 || v >= |s.dead| || s.dead[v] {
        continue;
      }
      if p.kind == CastOut && v == p.target {
        continue;
      }
      if v == p.proposer || VoteScore(s, v, p) >= 0 {
        yeas := yeas + [v];
      } else {
        nays := nays + [v];
      }
    }
    assert attendees[..|attendees|] == attendees;
  }

  predicate Distinct(s: seq<int>) {
    forall i, j :: 0 <= i < j < |s| ==> s[i] != s[j]
  }

  lemma {:induction false} SideMembers(s: State, p: Proposal, attendees: seq<int>, yea: bool, v: int)
    ensures v in Side(s, p, attendees, yea) <==> v in attendees && Eligible(s, p, v) && Favors(s, p, v) == yea
  {
    if attendees != [] {
      SideMembers(s, p, attendees[..|attendees| - 1], yea, v);
      assert attendees == attendees[..|attendees| - 1] + [attendees[|attendees| - 1]];
    }
  }

  lemma {:induction false} SideDistinct(s: State, p: Proposal, attendees: seq<int>, yea: bool)
    requires Distinct(attendees)
    ensures Distinct(Side(s, p, attendees, yea))
  {
    if attendees != [] {
      var front, v := attendees[..|attendees| - 1], attendees[|attendees| - 1];
      SideDistinct(s, p, front, yea);
      SideMembers(s, p, front, yea, v);
      assert v !in front;
    }
  }

  /** Every living attendee but the subject of an exile votes, on exactly one side and exactly once; nobody else
      does; the proposer is among the yeas when it votes. */
  lemma VotesPartitionTheEligible(s: State, p: Proposal, attendees: seq<int>, v: int)
    requires Distinct(attendees)
    ensures var yeas, nays := Side(s, p, attendees, true), Side(s, p, attendees, false);
            Distinct(yeas) && Distinct(nays) &&
            !(v in yeas && v in nays) &&
            (v in yeas || v in nays <==>
               v in attendees && 0 <= v < |s.dead| && !s.dead[v] && (p.kind == CastOut ==> v != p.target)) &&
            (v == p.proposer ==> v !in nays)
  {
    SideDistinct(s, p, attendees, true);
    SideDistinct(s, p, attendees, false);
    SideMembers(s, p, attendees, true, v);
    SideMembers(s, p, attendees, false, v);
  }

  /** The voters of a side stand in the order they attended in. */
  lemma {:induction false} SideInOrder(s: State, p: Proposal, attendees: seq<int>, yea: bool, a: nat, b: nat)
    requires a < b < |Side(s, p, attendees, yea)|
    ensures exists i, j :: 0 <= i < j < |attendees| &&
              attendees[i] == Side(s, p, attendees, yea)[a] && attendees[j] == Side(s, p, attendees, yea)[b]
  {
    hide Eligible, Favors;
    var n := |attendees| - 1;
    var front := attendees[..n];
    var earlier := Side(s, p, front, yea);
    assert earlier == Side(s, p, attendees, yea)[..|earlier|];
    if b < |earlier| {
      SideInOrder(s, p, front, yea, a, b);
      var i, j :| 0 <= i < j < |front| && front[i] == earlier[a] && front[j] == earlier[b];
      assert attendees[i] == earlier[a] && attendees[j] == earlier[b];
    } else {
      SideMembers(s, p, front, yea, earlier[a]);
      var i :| 0 <= i < |front| && front[i] == earlier[a];
      assert attendees[i] == Side(s, p, attendees, yea)[a] && attendees[n] == Side(s, p, attendees, yea)[b];
    }
  }

  // ---- what a vote expresses ----

  /** On an exile: whoever hates the subject, and does not think ill of the proposer, is for it; whoever holds the
      subject dear, and the proposer not above that, is against; and liking the subject more never makes a vote
      for exile. */
  lemma ExileVotes(s: State, p: Proposal, v: int)
    requires p.kind == CastOut && v != p.proposer
    ensures var subject, proposer := Between(s.relations, v, p.target), Between(s.relations, v, p.proposer);
            var liking, backing := subject.trust + subject.affection, proposer.trust + proposer.affection;
            && (liking <= 0 && backing >= 0 ==> Favors(s, p, v))
            && (liking > 0 && backing < 4 * liking ==> !Favors(s, p, v))
            && (Favors(s, p, v) <==> (if backing >= 0 then backing >= 4 * liking else -backing < 4 * (1 - liking)))
  {
  }

  lemma LikingNeverExiles(s: State, t: State, p: Proposal, v: int)
    requires p.kind == CastOut && v != p.proposer && p.proposer != p.target
    requires Warmth(t, v, p.proposer) == Warmth(s, v, p.proposer) && Warmth(s, v, p.target) <= Warmth(t, v, p.target)
    ensures Favors(t, p, v) ==> Favors(s, p, v)
  {
  }

  /** On a new rule: the vote is for whoever proposes it. On changing one: whoever has broken it is for it unless the
      proposer is hated by more than 400. */
  lemma RuleVotes(s: State, p: Proposal, v: int)
    requires p.kind != CastOut && v != p.proposer
    ensures var proposer := Between(s.relations, v, p.proposer);
            var backing := proposer.trust + proposer.affection;
            var broken := (p.kind == Amend || p.kind == Repeal) && (p.normId, v) in s.violated &&
                          exists n :: n in s.norms && n.id == p.normId;
            Favors(s, p, v) <==> backing >= if broken then -400 else 0
  {
    var i := NormIndex(s.norms, p.normId);
    if n :| n in s.norms && n.id == p.normId {
      var j :| 0 <= j < |s.norms| && s.norms[j] == n;
    }
    if i < |s.norms| {
      assert s.norms[i] in s.norms;
    }
  }

  /** The resolution of a tabled proposal: both sides and whether it passed, by a strict majority of the votes. */
  method VoteOnProposal(s: State, p: Proposal, attendees: seq<int>) returns (yeas: seq<int>, nays: seq<int>, passed: bool)
    ensures yeas == Side(s, p, attendees, true) && nays == Side(s, p, attendees, false)
    ensures passed <==> |yeas| > |nays|
  {
    yeas, nays := ResolveVotes(s, p, attendees);
    passed := |yeas| * 2 > |yeas| + |nays|;
  }

  // ---- how a vote moves relations ----

  predicate Pairs(s: State, a: int, b: int) {
    a != b && InRange(s, a) && InRange(s, b)
  }

  /** `a` warms to the first `n` of its own side. */
  function WarmTo(s: State, rels: seq<Relation>, a: int, group: seq<int>, n: nat): seq<Relation>
    requires n <= |group|
  {
    if n == 0 then rels
    else
      var r := WarmTo(s, rels, a, group, n - 1);
      var b := group[n - 1];
      if Pairs(s, a, b) then SetEdge(r, a, b, Warmed(Between(r, a, b))) else r
  }

  /** `a` cools to the first `n` of the other side. */
  function CoolTo(s: State, rels: seq<Relation>, a: int, other: seq<int>, n: nat): seq<Relation>
    requires n <= |other|
  {
    if n == 0 then rels
    else
      var r := CoolTo(s, rels, a, other, n - 1);
      var b := other[n - 1];
      if Pairs(s, a, b) then SetEdge(r, a, b, Cooled(Between(r, a, b))) else r
  }

  /** The first `n` of one side have moved. */
  function Deltas(s: State, rels: seq<Relation>, group: seq<int>, other: seq<int>, n: nat): seq<Relation>
    requires n <= |group|
  {
    if n == 0 then rels
    else
      var r := Deltas(s, rels, group, other, n - 1);
      CoolTo(s, WarmTo(s, r, group[n - 1], group, |group|), group[n - 1], other, |other|)
  }

  function Moved(s: State, yeas: seq<int>, nays: seq<int>): seq<Relation> {
    var r := Deltas(s, s.relations, yeas, nays, |yeas|);
    Deltas(s, r, nays, yeas, |nays|)
  }

  lemma {:induction false} WarmToEdge(s: State, rels: seq<Relation>, a: int, group: seq<int>, n: nat, x: int, y: int)
    requires n <= |group| && Distinct(group)
    ensures Between(WarmTo(s, rels, a, group, n), x, y) ==
            if x == a && y in group[..n] && Pairs(s, a, y) then Warmed(Between(rels, x, y)) else Between(rels, x, y)
  {
    if n > 0 {
      var r, b := WarmTo(s, rels, a, group, n - 1), group[n - 1];
      WarmToEdge(s, rels, a, group, n - 1, x, y);
      assert group[..n] == group[..n - 1] + [b] && b !in group[..n - 1];
      SetEdgeChangesOnePair(r, a, b, Warmed(Between(r, a, b)), x, y);
    }
  }

  lemma {:induction false} CoolToEdge(s: State, rels: seq<Relation>, a: int, other: seq<int>, n: nat, x: int, y: int)
    requires n <= |other| && Distinct(other)
    ensures Between(CoolTo(s, rels, a, other, n), x, y) ==
            if x == a && y in other[..n] && Pairs(s, a, y) then Cooled(Between(rels, x, y)) else Between(rels, x, y)
  {
    if n > 0 {
      var r, b := CoolTo(s, rels, a, other, n - 1), other[n - 1];
      CoolToEdge(s, rels, a, other, n - 1, x, y);
      assert other[..n] == other[..n - 1] + [b] && b !in other[..n - 1];
      SetEdgeChangesOnePair(r, a, b, Cooled(Between(r, a, b)), x, y);
    }
  }

  predicate Disjoint(a: seq<int>, b: seq<int>) {
    forall i, j :: 0 <= i < |a| && 0 <= j < |b| ==> a[i] != b[j]
  }

  /** What the votes of `x` do to its edge towards `y`, when `x` votes with `group`. */
  function Stirred(s: State, e: Edge, x: int, y: int, group: seq<int>, other: seq<int>): Edge {
    if !Pairs(s, x, y) then e else if y in group then Warmed(e) else if y in other then Cooled(e) else e
  }

  lemma OneMoves(s: State, rels: seq<Relation>, a: int, group: seq<int>, other: seq<int>, x: int, y: int)
    requires Distinct(group) && Distinct(other) && Disjoint(group, other)
    ensures Between(CoolTo(s, WarmTo(s, rels, a, group, |group|), a, other, |other|), x, y) ==
            if x == a then Stirred(s, Between(rels, x, y), x, y, group, other) else Between(rels, x, y)
  {
    WarmToEdge(s, rels, a, group, |group|, x, y);
    CoolToEdge(s, WarmTo(s, rels, a, group, |group|), a, other, |other|, x, y);
    assert group[..|group|] == group && other[..|other|] == other;
  }

  lemma {:induction false} DeltasEdge(s: State, rels: seq<Relation>, group: seq<int>, other: seq<int>, n: nat, x: int, y: int)
    requires n <= |group| && Distinct(group) && Distinct(other) && Disjoint(group, other)
    ensures Between(Deltas(s, rels, group, other, n), x, y) ==
            if x in group[..n] then Stirred(s, Between(rels, x, y), x, y, group, other) else Between(rels, x, y)
  {
    hide WarmTo, CoolTo, Stirred, Between;
    if n > 0 {
      DeltasEdge(s, rels, group, other, n - 1, x, y);
      assert group[..n] == group[..n - 1] + [group[n - 1]] && group[n - 1] !in group[..n - 1];
      OneMoves(s, Deltas(s, rels, group, other, n - 1), group[n - 1], group, other, x, y);
    }
  }

  /** Every ordered pair of voters moves exactly once: affection up on the same side, trust down across,
      both within bounds; every other edge, and the other half of each moved edge, stays. */
  lemma VoteMovesEachPairOnce(s: State, yeas: seq<int>, nays: seq<int>, x: int, y: int)
    requires Distinct(yeas) && Distinct(nays) && Disjoint(yeas, nays)
    ensures var before, after := Between(s.relations, x, y), Between(Moved(s, yeas, nays), x, y);
            after == if x == y || !(0 <= x < |s.dead|) || !(0 <= y < |s.dead|) then before
                     else if (x in yeas && y in yeas) || (x in nays && y in nays) then Warmed(before)
                     else if (x in yeas && y in nays) || (x in nays && y in yeas) then Cooled(before)
                     else before
  {
    var r := Deltas(s, s.relations, yeas, nays, |yeas|);
    DeltasEdge(s, s.relations, yeas, nays, |yeas|, x, y);
    DeltasEdge(s, r, nays, yeas, |nays|, x, y);
    assert yeas[..|yeas|] == yeas && nays[..|nays|] == nays;
  }

  lemma SidesAreDisjoint(s: State, p: Proposal, attendees: seq<int>)
    requires Distinct(attendees)
    ensures Disjoint(Side(s, p, attendees, true), Side(s, p, attendees, false))
  {
    var yeas, nays := Side(s, p, attendees, true), Side(s, p, attendees, false);
    forall i, j | 0 <= i < |yeas| && 0 <= j < |nays|
      ensures yeas[i] != nays[j]
    {
      SideMembers(s, p, attendees, true, yeas[i]);
      SideMembers(s, p, attendees, false, nays[j]);
    }
  }

  /** In numbers: a shared side warms affection by 8 up to 1000 and leaves trust; opposite sides cost trust 10 down
      to -1000 and leave affection. */
  lemma VoteInNumbers(e: Edge)
    requires -1000 <= e.trust <= 1000 && -1000 <= e.affection <= 1000
    ensures Warmed(e) == Edge(e.trust, if e.affection <= 992 then e.affection + 8 else 1000)
    ensures Cooled(e) == Edge(if e.trust >= -990 then e.trust - 10 else -1000, e.affection)
  {
  }

  /** From the vote to the square: after a proposal is voted on and resolved, two eligible attendees are
      warmer if and only if they voted alike, and cooler if and only if they did not. */
  lemma ResolvedVoteMovesVoters(s: State, p: Proposal, attendees: seq<int>, passed: bool, x: int, y: int)
    requires Distinct(attendees) && x != y
    requires x in attendees && y in attendees && Eligible(s, p, x) && Eligible(s, p, y)
    ensures var s' := Resolve(s, p, Side(s, p, attendees, true), Side(s, p, attendees, false), passed);
            Between(s'.relations, x, y) ==
              if Favors(s, p, x) == Favors(s, p, y) then Warmed(Between(s.relations, x, y))
              else Cooled(Between(s.relations, x, y))
  {
    var yeas, nays := Side(s, p, attendees, true), Side(s, p, attendees, false);
    VotesPartitionTheEligible(s, p, attendees, x);
    SidesAreDisjoint(s, p, attendees);
    SideMembers(s, p, attendees, true, x);
    SideMembers(s, p, attendees, true, y);
    SideMembers(s, p, attendees, false, x);
    SideMembers(s, p, attendees, false, y);
    var s1 := if passed then Enact(s, p) else s;
    VoteMovesEachPairOnce(s1, yeas, nays, x, y);
  }

  /** Two voters who had no relation begin with one: 8 of affection when they voted alike, trust 10 down when not. */
  lemma StrangersBeginWith(s: State, p: Proposal, attendees: seq<int>, passed: bool, x: int, y: int)
    requires Distinct(attendees) && x != y
    requires x in attendees && y in attendees && Eligible(s, p, x) && Eligible(s, p, y)
    requires forall i :: 0 <= i < |s.relations| ==> !(s.relations[i].from == x && s.relations[i].to == y)
    ensures var s' := Resolve(s, p, Side(s, p, attendees, true), Side(s, p, attendees, false), passed);
            Between(s'.relations, x, y) == if Favors(s, p, x) == Favors(s, p, y) then Edge(0, 8) else Edge(-10, 0)
  {
    ResolvedVoteMovesVoters(s, p, attendees, passed, x, y);
    hide Resolve, Favors;
    IndexIs(s.relations, x, y, |s.relations|);
  }

  // ---- law ----

  function ActiveIndex(norms: seq<Norm>, kind: NormKind): (i: nat)
    ensures i <= |norms| && (i < |norms| ==> norms[i].active && norms[i].kind == kind)
    ensures i == |norms| ==> forall j :: 0 <= j < |norms| ==> !(norms[j].active && norms[j].kind == kind)
  {
    if norms == [] then 0
    else
      var i := ActiveIndex(norms[..|norms| - 1], kind);
      var last := norms[|norms| - 1];
      if i < |norms| - 1 then i else if last.active && last.kind == kind then i else |norms|
  }

  predicate IsExiled(norms: seq<Norm>, agent: int) {
    exists i :: 0 <= i < |norms| && Banishes(norms[i], agent)
  }

  predicate Banishes(n: Norm, agent: int) {
    n.active && n.kind == Exile && n.target == agent
  }

  function Appended(s: State, kind: NormKind, target: int, param: int, proposer: int): State {
    s.(nextNormId := s.nextNormId + 1,
       norms := s.norms + [Norm(s.nextNormId + 1, kind, target, param, proposer, true, false)])
  }

  /** A passed proposal becomes law, unless it would double a law in force or judge the dead. */
  function Enact(s: State, p: Proposal): State {
    match p.kind
    case AddCurfew =>
      if ActiveIndex(s.norms, Curfew) < |s.norms| then s else Appended(s, Curfew, -1, p.param, p.proposer)
    case AddRepayDebts =>
      if ActiveIndex(s.norms, RepayDebts) < |s.norms| then s else Appended(s, RepayDebts, -1, 0, p.proposer)
    case Amend =>
      var i := NormIndex(s.norms, p.normId);
      if i < |s.norms| && s.norms[i].active && !s.norms[i].amended then
        s.(norms := s.norms[i := s.norms[i].(param := p.param, amended := true)])
      else s
    case Repeal =>
      var i := NormIndex(s.norms, p.normId);
      if i < |s.norms| && s.norms[i].active then s.(norms := s.norms[i := s.norms[i].(active := false)]) else s
    case CastOut =>
      if Living(s, p.target) && !IsExiled(s.norms, p.target) then Appended(s, Exile, p.target, 0, p.proposer) else s
    case OtherProposal(_) => s
  }

  function Resolve(s: State, p: Proposal, yeas: seq<int>, nays: seq<int>, passed: bool): State {
    var s1 := if passed then Enact(s, p) else s;
    s1.(relations := Moved(s1, yeas, nays))
  }

  class Village {
    var dead: seq<bool>
    var relations: seq<Relation>
    var norms: seq<Norm>
    var nextNormId: nat
    var violated: seq<(int, int)>

    ghost function Abs(): State
      reads this
    {
      State(dead, relations, norms, nextNormId, violated)
    }

    constructor (agents: seq<bool>)
      ensures Abs() == State(agents, [], [], 0, [])
    {
      dead, relations, norms, nextNormId, violated := agents, [], [], 0, [];
    }

    method AppendNorm(kind: NormKind, target: int, param: int, proposer: int)
      modifies this`norms, this`nextNormId
      ensures Abs() == Appended(old(Abs()), kind, target, param, proposer)
    {
      nextNormId := nextNormId + 1;
      norms := norms + [Norm(nextNormId, kind, target, param, proposer, true, false)];
    }

    method EnactProposal(p: Proposal)
      modifies this`norms, this`nextNormId
      ensures Abs() == Enact(old(Abs()), p)
    {
      match p.kind {
        case AddCurfew =>
          if ActiveIndex(norms, Curfew) == |norms| {
            AppendNorm(Curfew, -1, p.param, p.proposer);
          }
        case AddRepayDebts =>
          if ActiveIndex(norms, RepayDebts) == |norms| {
            AppendNorm(RepayDebts, -1, 0, p.proposer);
          }
        case Amend =>
          var i := NormIndex(norms, p.normId);
          if i < |norms| && norms[i].active && !norms[i].amended {
            norms := norms[i := norms[i].(param := p.param, amended := true)];
          }
        case Repeal =>
          var i := NormIndex(norms, p.normId);
          if i < |norms| && norms[i].active {
            norms := norms[i := norms[i].(active := false)];
          }
        case CastOut =>
          if 0 <= p.target < |dead| && !dead[p.target] && !IsExiled(norms, p.target) {
            AppendNorm(Exile, p.target, 0, p.proposer);
          }
        case OtherProposal(_) =>
      }
    }

    /** One side's movement: each member warms to its own side and cools to the other. */
    method MoveSide(group: seq<int>, other: seq<int>)
      modifies this`relations
      ensures relations == Deltas(old(Abs()), old(relations), group, other, |group|)
    {
      ghost var s := Abs();
      for i := 0 to |group|
        invariant dead == s.dead && relations == Deltas(s, s.relations, group, other, i)
      {
        var a := group[i];
        ghost var r := relations;
        for j := 0 to |group|
          invariant dead == s.dead && relations == WarmTo(s, r, a, group, j)
        {
          var b := group[j];
          if !(a == b || a < 0 || b < 0 || a >= |dead| || b >= |dead|) {
            relations := SetEdge(relations, a, b, Warmed(Between(relations, a, b)));
          }
        }
        ghost var warm := relations;
        for j := 0 to |other|
          invariant dead == s.dead && relations == CoolTo(s, warm, a, other, j)
        {
          var b := other[j];
          if !(a == b || a < 0 || b < 0 || a >= |dead| || b >= |dead|) {
            relations := SetEdge(relations, a, b, Cooled(Between(relations, a, b)));
          }
        }
      }
    }

    method ResolveProposal(p: Proposal, yeas: seq<int>, nays: seq<int>, passed: bool)
      modifies this
      ensures Abs() == Resolve(old(Abs()), p, yeas, nays, passed)
    {
      if passed {
        EnactProposal(p);
      }
      ghost var s1 := Abs();
      MoveSide(yeas, nays);
      DeltasIgnoreRelations(s1, Abs(), relations, nays, yeas, |nays|);
      MoveSide(nays, yeas);
    }
  }

  lemma {:induction false} WarmIgnoresRelations(s: State, t: State, rels: seq<Relation>, a: int, group: seq<int>, n: nat)
    requires s.dead == t.dead && n <= |group|
    ensures WarmTo(s, rels, a, group, n) == WarmTo(t, rels, a, group, n)
    ensures CoolTo(s, rels, a, group, n) == CoolTo(t, rels, a, group, n)
  {
    if n > 0 {
      WarmIgnoresRelations(s, t, rels, a, group, n - 1);
    }
  }

  lemma {:induction false} DeltasIgnoreRelations(s: State, t: State, rels: seq<Relation>, group: seq<int>, other: seq<int>, n: nat)
    requires s.dead == t.dead && n <= |group|
    ensures Deltas(s, rels, group, other, n) == Deltas(t, rels, group, other, n)
  {
    hide WarmTo, CoolTo;
    if n > 0 {
      DeltasIgnoreRelations(s, t, rels, group, other, n - 1);
      var r := Deltas(s, rels, group, other, n - 1);
      WarmIgnoresRelations(s, t, r, group[n - 1], group, |group|);
      WarmIgnoresRelations(s, t, WarmTo(s, r, group[n - 1], group, |group|), group[n - 1], other, |other|);
    }
  }

  /** Two norms that cannot be in force together. */
  predicate Clash(m: Norm, n: Norm) {
    m.active && n.active && m.kind == n.kind && (m.kind == Exile ==> m.target == n.target)
  }

  predicate LawOk(s: State) {
    && (forall i :: 0 <= i < |s.norms| ==> 1 <= s.norms[i].id <= s.nextNormId)
    && (forall i, j :: 0 <= i < j < |s.norms| ==> s.norms[i].id < s.norms[j].id)
    && (forall i, j :: 0 <= i < j < |s.norms| ==> !Clash(s.norms[i], s.norms[j]))
  }

  lemma AppendedOk(s: State, kind: NormKind, target: int, param: int, proposer: int)
    requires LawOk(s)
    requires forall i :: 0 <= i < |s.norms| ==>
               !(s.norms[i].active && s.norms[i].kind == kind && (kind == Exile ==> s.norms[i].target == target))
    ensures LawOk(Appended(s, kind, target, param, proposer))
  {
  }

  lemma EnactKeepsLaw(s: State, p: Proposal)
    requires LawOk(s)
    ensures LawOk(Enact(s, p))
  {
    match p.kind
    case AddCurfew =>
      if ActiveIndex(s.norms, Curfew) == |s.norms| {
        AppendedOk(s, Curfew, -1, p.param, p.proposer);
      }
    case AddRepayDebts =>
      if ActiveIndex(s.norms, RepayDebts) == |s.norms| {
        AppendedOk(s, RepayDebts, -1, 0, p.proposer);
      }
    case CastOut =>
      if Living(s, p.target) && !IsExiled(s.norms, p.target) {
        forall i | 0 <= i < |s.norms|
          ensures !(s.norms[i].active && s.norms[i].kind == Exile && s.norms[i].target == p.target)
        {
          assert !Banishes(s.norms[i], p.target);
        }
        AppendedOk(s, Exile, p.target, 0, p.proposer);
      }
    case _ =>
  }

  /** The record of the law: norms are only ever added at the end, keep what they are, and a repealed norm
      never comes back into force. */
  predicate Extends(before: seq<Norm>, after: seq<Norm>) {
    |before| <= |after| && forall i :: 0 <= i < |before| ==> Continues(before[i], after[i])
  }

  predicate Continues(m: Norm, n: Norm) {
    && n.id == m.id && n.kind == m.kind && n.target == m.target && n.proposer == m.proposer
    && (n.active ==> m.active) && (m.amended ==> n.amended && n.param == m.param)
  }

  datatype Resolution = Resolution(p: Proposal, yeas: seq<int>, nays: seq<int>, passed: bool, dead: seq<bool>)

  /** Resolutions in turn, with whoever has died before each. */
  function Run(s: State, rs: seq<Resolution>): State {
    if rs == [] then s
    else
      var r := rs[|rs| - 1];
      Resolve(Run(s, rs[..|rs| - 1]).(dead := r.dead), r.p, r.yeas, r.nays, r.passed)
  }

  lemma ResolveKeepsLaw(s: State, p: Proposal, yeas: seq<int>, nays: seq<int>, passed: bool)
    requires LawOk(s)
    ensures LawOk(Resolve(s, p, yeas, nays, passed))
    ensures Extends(s.norms, Resolve(s, p, yeas, nays, passed).norms)
  {
    EnactKeepsLaw(s, p);
  }

  /** Over every sequence of resolved proposals: norm ids are distinct and increasing, at most one curfew,
      one repay rule and one exile of each villager are in force, and the record only grows. */
  lemma {:induction false} LawStaysConsistent(s: State, rs: seq<Resolution>)
    requires LawOk(s)
    ensures LawOk(Run(s, rs)) && Extends(s.norms, Run(s, rs).norms)
  {
    hide Resolve;
    if rs != [] {
      var r := rs[|rs| - 1];
      var before := Run(s, rs[..|rs| - 1]);
      LawStaysConsistent(s, rs[..|rs| - 1]);
      ResolveKeepsLaw(before.(dead := r.dead), r.p, r.yeas, r.nays, r.passed);
    }
  }

  // ---- what a passed proposal does ----

  predicate InForce(s: State, kind: NormKind, target: int) {
    exists n :: n in s.norms && n.active && n.kind == kind && (kind == Exile ==> n.target == target)
  }

  lemma InForceByIndex(s: State, kind: NormKind, target: int, i: nat)
    requires i < |s.norms| && s.norms[i].active && s.norms[i].kind == kind && (kind == Exile ==> s.norms[i].target == target)
    ensures InForce(s, kind, target)
  {
    assert s.norms[i] in s.norms;
  }

  /** A passed curfew or repay rule is in force afterwards, and new exactly if none was; a passed exile of a living
      villager banishes it, one of the dead does nothing. */
  lemma NewLawIsInForce(s: State, p: Proposal)
    ensures p.kind == AddCurfew ==>
              InForce(Enact(s, p), Curfew, -1) && (|Enact(s, p).norms| > |s.norms| <==> !InForce(s, Curfew, -1))
    ensures p.kind == AddRepayDebts ==>
              InForce(Enact(s, p), RepayDebts, -1) && (|Enact(s, p).norms| > |s.norms| <==> !InForce(s, RepayDebts, -1))
    ensures p.kind == CastOut ==>
              (if Living(s, p.target) then InForce(Enact(s, p), Exile, p.target) else Enact(s, p) == s) &&
              (|Enact(s, p).norms| > |s.norms| <==> Living(s, p.target) && !InForce(s, Exile, p.target))
  {
    var s' := Enact(s, p);
    ActiveByIndex(s, Curfew);
    ActiveByIndex(s, RepayDebts);
    ExileByIndex(s, p.target);
    if |s'.norms| > |s.norms| {
      assert s'.norms[|s.norms|] in s'.norms;
    }
  }

  /** What is added to the law: one norm at its end, in force and unamended, of the proposer and with what it
      proposed. */
  lemma NewNormIs(s: State, p: Proposal)
    requires |Enact(s, p).norms| > |s.norms|
    ensures var after, n := Enact(s, p).norms, |s.norms|;
            && |after| == n + 1 && after[..n] == s.norms
            && after[n].active && !after[n].amended && after[n].proposer == p.proposer
            && match p.kind
               case AddCurfew => after[n].kind == Curfew && after[n].param == p.param
               case AddRepayDebts => after[n].kind == RepayDebts
               case CastOut => after[n].kind == Exile && after[n].target == p.target
               case _ => false
  {
  }

  /** The law of a village is numbered from one without gaps, whatever was resolved. */
  lemma {:induction false} LawIsNumbered(s: State, rs: seq<Resolution>)
    requires s.norms == [] && s.nextNormId == 0
    ensures var law := Run(s, rs);
            law.nextNormId == |law.norms| && forall i :: 0 <= i < |law.norms| ==> law.norms[i].id == i + 1
  {
    if rs != [] {
      LawIsNumbered(s, rs[..|rs| - 1]);
      hide Moved;
    }
  }

  lemma ActiveByIndex(s: State, kind: NormKind)
    requires kind != Exile
    ensures InForce(s, kind, -1) <==> ActiveIndex(s.norms, kind) < |s.norms|
  {
    if n :| n in s.norms && n.active && n.kind == kind {
      var i :| 0 <= i < |s.norms| && s.norms[i] == n;
    }
    if ActiveIndex(s.norms, kind) < |s.norms| {
      InForceByIndex(s, kind, -1, ActiveIndex(s.norms, kind));
    }
  }

  lemma ExileByIndex(s: State, target: int)
    ensures InForce(s, Exile, target) <==> IsExiled(s.norms, target)
  {
    if n :| n in s.norms && n.active && n.kind == Exile && n.target == target {
      var i :| 0 <= i < |s.norms| && s.norms[i] == n;
      assert Banishes(s.norms[i], target);
    }
    if i :| 0 <= i < |s.norms| && Banishes(s.norms[i], target) {
      InForceByIndex(s, Exile, target, i);
    }
  }

  /** A passed repeal of a norm in force ends it and changes no other norm; a passed amendment of one not amended
      yet sets its parameter, once. */
  lemma ChangedLaw(s: State, p: Proposal, i: nat, j: nat)
    requires LawOk(s) && i < |s.norms| && j < |s.norms| && s.norms[i].id == p.normId
    ensures p.kind == Repeal ==>
              Enact(s, p).norms[i] == s.norms[i].(active := false) &&
              |Enact(s, p).norms| == |s.norms| && (j != i ==> Enact(s, p).norms[j] == s.norms[j])
    ensures p.kind == Amend ==>
              Enact(s, p).norms[i] == (if s.norms[i].active && !s.norms[i].amended
                                       then s.norms[i].(param := p.param, amended := true) else s.norms[i]) &&
              |Enact(s, p).norms| == |s.norms| && (j != i ==> Enact(s, p).norms[j] == s.norms[j])
  {
    var k := NormIndex(s.norms, p.normId);
    assert k == i;
  }

  /** A proposal that did not pass leaves the law as it was; and law never depends on how the votes were cast. */
  lemma LawOnlyChangesByPassing(s: State, p: Proposal, yeas: seq<int>, nays: seq<int>, passed: bool)
    ensures Resolve(s, p, yeas, nays, passed).norms == if passed then Enact(s, p).norms else s.norms
    ensures Resolve(s, p, yeas, nays, passed).nextNormId == if passed then Enact(s, p).nextNormId else s.nextNormId
  {
  }
}

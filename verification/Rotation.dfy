/** Refresh-token rotation with family reuse detection, in the manner of section
    4.14.2 of RFC 9700, as interleaved statements of many callers on one table. */
module Rotation {
  import opened Basics
  import opened Protocol

  type TokenId = nat
  type FamilyId = nat
  type Caller = nat

  datatype Token = Token(family: FamilyId, consumed: bool, revoked: bool, expires: Timestamp)

  /** Where a caller is between two statements. */
  datatype Pc =
    | Found(token: TokenId, row: Token)          // presented token read and accepted
    | Inserting(parent: TokenId, family: FamilyId)   // consumed, successor not written yet
    | Revoking(family: FamilyId)                 // about to revoke the family
    | Done

  /** The table, the callers, and the history proofs speak about: every id ever
      issued, each family's tokens in issue order, every successful consume, and
      for each successor the token that was spent to make it. */
  datatype Store = Store(
    tokens: map<TokenId, Token>,
    callers: map<Caller, Pc>,
    issued: set<TokenId>,
    chains: map<FamilyId, seq<TokenId>>,
    spent: seq<TokenId>,
    parents: map<TokenId, TokenId>)

  const EMPTY := Store(map[], map[], {}, map[], [], map[])

  datatype Step =
    | Login(id: TokenId, expires: Timestamp)
    | Present(who: Caller, token: TokenId, now: Timestamp)      // rotate_refresh up to the consume
    | Consume(who: Caller)
    | Insert(who: Caller, id: TokenId, expires: Timestamp)
    | Abandon(who: Caller)                                      // the user lookup in between failed
    | Logout(who: Caller, token: TokenId)                       // revoke_session up to the revoke
    | Revoke(who: Caller)
    | Cleanup(cutoff: Timestamp)

  function Move(s: Store, who: Caller, pc: Pc): Store {
    s.(callers := s.callers[who := pc])
  }

  function RevokeFamily(tokens: map<TokenId, Token>, f: FamilyId): map<TokenId, Token> {
    map id | id in tokens :: if tokens[id].family == f then tokens[id].(revoked := true) else tokens[id]
  }

  predicate At(s: Store, who: Caller) {
    who in s.callers
  }

  predicate Enabled(s: Store, step: Step) {
    match step
    case Login(id, _) => id !in s.issued
    case Present(who, _, _) => !At(s, who) || s.callers[who].Done?
    case Consume(who) => At(s, who) && s.callers[who].Found?
    case Insert(who, id, _) => At(s, who) && s.callers[who].Inserting? && id !in s.issued
    case Abandon(who) => At(s, who) && s.callers[who].Inserting?
    case Logout(who, _) => !At(s, who) || s.callers[who].Done?
    case Revoke(who) => At(s, who) && s.callers[who].Revoking?
    case Cleanup(_) => true
  }

  function Chain(s: Store, f: FamilyId): seq<TokenId> {
    if f in s.chains then s.chains[f] else []
  }

  function Apply(s: Store, step: Step): Store
    requires Enabled(s, step)
  {
    match step
    case Login(id, expires) =>
      s.(tokens := s.tokens[id := Token(id, false, false, expires)],
         issued := s.issued + {id},
         chains := s.chains[id := [id]])
    case Present(who, id, now) =>
      if id !in s.tokens then Move(s, who, Done)
      else
        var row := s.tokens[id];
        if row.consumed then Move(s, who, Revoking(row.family))
        else if row.revoked || row.expires <= now then Move(s, who, Done)
        else Move(s, who, Found(id, row))
    case Consume(who) =>
      var id, row := s.callers[who].token, s.callers[who].row;
      if id in s.tokens && !s.tokens[id].consumed && !s.tokens[id].revoked then
        Move(s.(tokens := s.tokens[id := s.tokens[id].(consumed := true)], spent := s.spent + [id]),
             who, Inserting(id, row.family))
      else Move(s, who, Revoking(row.family))
    case Insert(who, id, expires) =>
      var f := s.callers[who].family;
      Move(s.(tokens := s.tokens[id := Token(f, false, false, expires)],
              issued := s.issued + {id},
              chains := s.chains[f := Chain(s, f) + [id]],
              parents := s.parents[id := s.callers[who].parent]),
           who, Done)
    case Abandon(who) => Move(s, who, Done)
    case Logout(who, id) =>
      if id !in s.tokens then Move(s, who, Done) else Move(s, who, Revoking(s.tokens[id].family))
    case Revoke(who) =>
      Move(s.(tokens := RevokeFamily(s.tokens, s.callers[who].family)), who, Done)
    case Cleanup(cutoff) =>
      s.(tokens := map id | id in s.tokens && s.tokens[id].expires >= cutoff :: s.tokens[id])
  }

  ghost predicate Runs(s: Store, steps: seq<Step>, s': Store)
    decreases |steps|
  {
    if steps == [] then s' == s
    else Enabled(s, steps[0]) && Runs(Apply(s, steps[0]), steps[1..], s')
  }

  // ---------------------------------------------------------------------------
  // The invariant
  // ---------------------------------------------------------------------------

  predicate Live(s: Store, id: TokenId) {
    id in s.tokens && !s.tokens[id].consumed && !s.tokens[id].revoked
  }

  /** A rotation of the family between its consume and its insert. */
  predicate InFlight(s: Store, who: Caller, f: FamilyId) {
    who in s.callers && s.callers[who].Inserting? && s.callers[who].family == f
  }

  predicate LastOf(chain: seq<TokenId>, id: TokenId) {
    chain != [] && chain[|chain| - 1] == id
  }

  /** A family is one chain: ids issued once, each the successor of the one before
      it, which was consumed to make it. */
  ghost predicate ChainOk(s: Store, f: FamilyId)
    requires f in s.chains
  {
    var chain := s.chains[f];
    && chain != [] && chain[0] == f
    && NoDup(chain)
    && (forall i :: 0 <= i < |chain| ==> chain[i] in s.issued)
    && (forall i :: 0 <= i < |chain| - 1 ==> chain[i] in s.spent)
  }

  /** A stored token sits in its family's chain, and only the last may be live. */
  ghost predicate TokenOk(s: Store, id: TokenId)
    requires id in s.tokens
  {
    var f := s.tokens[id].family;
    && id in s.issued && f in s.chains && id in s.chains[f]
    && (id in s.spent <==> s.tokens[id].consumed)
    && (Live(s, id) ==> LastOf(s.chains[f], id))
  }

  /** A rotation in flight holds the last token of the chain, spent by itself. */
  ghost predicate CallerOk(s: Store, who: Caller)
    requires who in s.callers
  {
    match s.callers[who]
    case Inserting(parent, f) =>
      && f in s.chains && LastOf(s.chains[f], parent) && parent in s.spent && f in s.issued
      && (forall other :: other in s.callers && other != who ==> !InFlight(s, other, f))
    case Found(id, row) =>
      id in s.issued && row.family in s.issued && (id in s.tokens ==> s.tokens[id].family == row.family)
    case Revoking(f) => f in s.issued
    case Done => true
  }

  ghost predicate ChainsOk(s: Store) {
    && (forall f :: f in s.chains ==> f in s.issued && ChainOk(s, f))
    && (forall f, g :: f in s.chains && g in s.chains && f != g ==>
          forall id :: id in s.chains[f] ==> id !in s.chains[g])
  }

  ghost predicate SpentOk(s: Store) {
    && NoDup(s.spent)
    && (forall id :: id in s.spent ==> id in s.issued)
  }

  ghost predicate Inv(s: Store) {
    && ChainsOk(s)
    && SpentOk(s)
    && (forall id :: id in s.tokens ==> TokenOk(s, id))
    && (forall who :: who in s.callers ==> CallerOk(s, who))
  }

  // ---------------------------------------------------------------------------
  // Steps
  // ---------------------------------------------------------------------------

  lemma LoginKeepsInv(s: Store, id: TokenId, expires: Timestamp)
    requires Inv(s) && id !in s.issued
    ensures Inv(Apply(s, Login(id, expires)))
  {
    var s' := Apply(s, Login(id, expires));
    forall f | f in s'.chains ensures f in s'.issued && ChainOk(s', f) {
      if f != id {
        assert ChainOk(s, f);
      }
    }
    forall f, g, x | f in s'.chains && g in s'.chains && f != g && x in s'.chains[f] ensures x !in s'.chains[g] {
      if f != id {
        assert ChainOk(s, f);
      } else {
        assert ChainOk(s, g);
      }
    }
    forall x | x in s'.tokens ensures TokenOk(s', x) {
      if x != id {
        assert TokenOk(s, x);
      }
    }
    forall who | who in s'.callers ensures CallerOk(s', who) {
      assert CallerOk(s, who);
    }
  }

  /** A caller moving to a position that claims nothing. */
  lemma MoveKeepsInv(s: Store, who: Caller, pc: Pc)
    requires Inv(s) && !pc.Inserting?
    requires pc.Found? ==> pc.token in s.tokens && s.tokens[pc.token].family == pc.row.family
    requires pc.Revoking? ==> pc.family in s.issued
    ensures Inv(Move(s, who, pc))
  {
    var s' := Move(s, who, pc);
    forall f | f in s'.chains ensures ChainOk(s', f) {
      assert ChainOk(s, f);
    }
    forall x | x in s'.tokens ensures TokenOk(s', x) {
      assert TokenOk(s, x);
    }
    forall w | w in s'.callers ensures CallerOk(s', w) {
      if w != who {
        assert CallerOk(s, w);
      }
    }
  }

  /** The step that decides a race: the token is live, so it is the last of its
      chain and nobody else is rotating the family. */
  lemma SpendKeepsInv(s: Store, who: Caller)
    requires Inv(s) && At(s, who) && s.callers[who].Found? && Live(s, s.callers[who].token)
    ensures Inv(Apply(s, Consume(who)))
  {
    var s' := Apply(s, Consume(who));
    var id := s.callers[who].token;
    assert TokenOk(s, id) && CallerOk(s, who);
    var f := s.tokens[id].family;
    assert id !in s.spent;
    forall g | g in s'.chains ensures ChainOk(s', g) {
      assert ChainOk(s, g);
    }
    forall x | x in s'.tokens ensures TokenOk(s', x) {
      assert TokenOk(s, x);
    }
    forall w | w in s'.callers ensures CallerOk(s', w) {
      if w != who {
        assert CallerOk(s, w);
      }
    }
  }

  lemma InsertKeepsChains(s: Store, who: Caller, id: TokenId, expires: Timestamp)
    requires Inv(s) && Enabled(s, Insert(who, id, expires))
    ensures ChainsOk(Apply(s, Insert(who, id, expires)))
  {
    var s' := Apply(s, Insert(who, id, expires));
    assert CallerOk(s, who);
    var f := s.callers[who].family;
    forall g | g in s'.chains ensures g in s'.issued && ChainOk(s', g) {
      assert ChainOk(s, g);
    }
    forall g, h, x | g in s'.chains && h in s'.chains && g != h && x in s'.chains[g] ensures x !in s'.chains[h] {
      assert ChainOk(s, g) && ChainOk(s, h);
      assert x == id || x in s.chains[g];
    }
  }

  lemma InsertKeepsInv(s: Store, who: Caller, id: TokenId, expires: Timestamp)
    requires Inv(s) && Enabled(s, Insert(who, id, expires))
    ensures Inv(Apply(s, Insert(who, id, expires)))
  {
    InsertKeepsChains(s, who, id, expires);
    var s' := Apply(s, Insert(who, id, expires));
    assert CallerOk(s, who);
    var f, parent := s.callers[who].family, s.callers[who].parent;
    assert s'.chains[f] == s.chains[f] + [id];
    forall x | x in s'.tokens ensures TokenOk(s', x) {
      if x != id {
        assert TokenOk(s, x);
        if s.tokens[x].family == f {
          assert !Live(s, x) || x == parent;
        }
      }
    }
    forall w | w in s'.callers ensures CallerOk(s', w) {
      if w != who {
        assert CallerOk(s, w);
        assert !InFlight(s, w, f);
      }
    }
  }

  lemma RevokeKeepsInv(s: Store, who: Caller)
    requires Inv(s) && Enabled(s, Revoke(who))
    ensures Inv(Apply(s, Revoke(who)))
  {
    var s1 := s.(tokens := RevokeFamily(s.tokens, s.callers[who].family));
    forall f | f in s1.chains ensures ChainOk(s1, f) {
      assert ChainOk(s, f);
    }
    forall x | x in s1.tokens ensures TokenOk(s1, x) {
      assert TokenOk(s, x);
    }
    forall w | w in s1.callers ensures CallerOk(s1, w) {
      assert CallerOk(s, w);
    }
    MoveKeepsInv(s1, who, Done);
  }

  lemma CleanupKeepsInv(s: Store, cutoff: Timestamp)
    requires Inv(s)
    ensures Inv(Apply(s, Cleanup(cutoff)))
  {
    var s' := Apply(s, Cleanup(cutoff));
    forall f | f in s'.chains ensures ChainOk(s', f) {
      assert ChainOk(s, f);
    }
    forall x | x in s'.tokens ensures TokenOk(s', x) {
      assert TokenOk(s, x);
    }
    forall w | w in s'.callers ensures CallerOk(s', w) {
      assert CallerOk(s, w);
    }
  }

  lemma StepKeepsInv(s: Store, step: Step)
    requires Inv(s) && Enabled(s, step)
    ensures Inv(Apply(s, step))
  {
    match step {
      case Login(id, expires) => LoginKeepsInv(s, id, expires);
      case Present(who, id, now) =>
        if id in s.tokens {
          assert TokenOk(s, id);
          MoveKeepsInv(s, who, Found(id, s.tokens[id]));
          MoveKeepsInv(s, who, Revoking(s.tokens[id].family));
        }
        MoveKeepsInv(s, who, Done);
      case Consume(who) =>
        if Live(s, s.callers[who].token) {
          SpendKeepsInv(s, who);
        } else {
          MoveKeepsInv(s, who, Revoking(s.callers[who].row.family));
        }
      case Insert(who, id, expires) => InsertKeepsInv(s, who, id, expires);
      case Abandon(who) => MoveKeepsInv(s, who, Done);
      case Logout(who, id) =>
        if id in s.tokens {
          MoveKeepsInv(s, who, Revoking(s.tokens[id].family));
        } else {
          MoveKeepsInv(s, who, Done);
        }
      case Revoke(who) => RevokeKeepsInv(s, who);
      case Cleanup(cutoff) => CleanupKeepsInv(s, cutoff);
    }
  }

  lemma {:induction false} RunKeepsInv(s: Store, steps: seq<Step>, s': Store)
    requires Inv(s) && Runs(s, steps, s')
    ensures Inv(s')
    decreases |steps|
  {
    if steps != [] {
      StepKeepsInv(s, steps[0]);
      RunKeepsInv(Apply(s, steps[0]), steps[1..], s');
    }
  }

  // ---------------------------------------------------------------------------
  // The theorems
  // ---------------------------------------------------------------------------

  function LiveTokens(s: Store, f: FamilyId): set<TokenId> {
    set id | id in s.tokens && s.tokens[id].family == f && Live(s, id)
  }

  function Rotations(s: Store, f: FamilyId): set<Caller> {
    set who | who in s.callers && InFlight(s, who, f)
  }

  lemma AtMostOne<T>(s: set<T>, x: T)
    requires forall y :: y in s ==> y == x
    ensures |s| <= 1
  {
    assert s <= {x};
    if x in s {
      assert s == {x};
    }
  }

  lemma LiveAndInFlightExclude(s: Store, f: FamilyId, id: TokenId, who: Caller)
    requires Inv(s) && id in LiveTokens(s, f)
    ensures !InFlight(s, who, f)
  {
    assert TokenOk(s, id);
    assert who in s.callers ==> CallerOk(s, who);
  }

  /** In every interleaving each family has at most one live token or rotation in
      flight, counted together, and no token was ever consumed twice. */
  lemma OneHolderPerFamily(steps: seq<Step>, s: Store, f: FamilyId)
    requires Runs(EMPTY, steps, s)
    ensures |LiveTokens(s, f)| + |Rotations(s, f)| <= 1
    ensures NoDup(s.spent)
  {
    RunKeepsInv(EMPTY, steps, s);
    if id :| id in LiveTokens(s, f) {
      forall y | y in LiveTokens(s, f) ensures y == id {
        assert TokenOk(s, y) && TokenOk(s, id);
      }
      AtMostOne(LiveTokens(s, f), id);
      forall who ensures !InFlight(s, who, f) {
        LiveAndInFlightExclude(s, f, id, who);
      }
      assert Rotations(s, f) == {};
    } else {
      assert LiveTokens(s, f) == {};
      if who :| who in Rotations(s, f) {
        assert CallerOk(s, who);
        AtMostOne(Rotations(s, f), who);
      } else {
        assert Rotations(s, f) == {};
      }
    }
  }

  // ---------------------------------------------------------------------------
  // Lineage
  // ---------------------------------------------------------------------------

  /** A successor at its place in a family's issue order. */
  predicate Placed(s: Store, f: FamilyId, i: nat, id: TokenId) {
    f in s.chains && 0 < i < |s.chains[f]| && s.chains[f][i] == id
  }

  /** Issue order is descent: each token but the first of its family was made by
      spending the one before it, and no other token has a parent. */
  ghost predicate Lineage(s: Store) {
    && (forall f, i, id :: Placed(s, f, i, id) ==> id in s.parents && s.parents[id] == s.chains[f][i - 1])
    && (forall id :: id in s.parents ==> id in s.issued && exists f, i :: Placed(s, f, i, id))
  }

  lemma InsertedDescends(s: Store, who: Caller, id: TokenId, expires: Timestamp, g: FamilyId, i: nat, x: TokenId)
    requires Inv(s) && Lineage(s) && Enabled(s, Insert(who, id, expires))
    requires Placed(Apply(s, Insert(who, id, expires)), g, i, x)
    ensures var s' := Apply(s, Insert(who, id, expires)); x in s'.parents && s'.parents[x] == s'.chains[g][i - 1]
  {
    var f := s.callers[who].family;
    assert CallerOk(s, who);
    if g != f || i < |s.chains[f]| {
      assert Placed(s, g, i, x) && ChainOk(s, g);
    }
  }

  lemma InsertKeepsLineage(s: Store, who: Caller, id: TokenId, expires: Timestamp)
    requires Inv(s) && Lineage(s) && Enabled(s, Insert(who, id, expires))
    ensures Lineage(Apply(s, Insert(who, id, expires)))
  {
    var s', f := Apply(s, Insert(who, id, expires)), s.callers[who].family;
    assert CallerOk(s, who);
    forall g, i, x | Placed(s', g, i, x) ensures x in s'.parents && s'.parents[x] == s'.chains[g][i - 1] {
      InsertedDescends(s, who, id, expires, g, i, x);
    }
    forall x | x in s'.parents ensures x in s'.issued && exists g, i :: Placed(s', g, i, x) {
      if x == id {
        assert Placed(s', f, |s.chains[f]|, id);
      } else {
        var g, i :| Placed(s, g, i, x);
        assert Placed(s', g, i, x);
      }
    }
  }

  lemma LoginKeepsLineage(s: Store, id: TokenId, expires: Timestamp)
    requires Inv(s) && Lineage(s) && Enabled(s, Login(id, expires))
    ensures Lineage(Apply(s, Login(id, expires)))
  {
    var s' := Apply(s, Login(id, expires));
    forall g, i, x | Placed(s', g, i, x) ensures x in s'.parents && s'.parents[x] == s'.chains[g][i - 1] {
      assert Placed(s, g, i, x);
    }
    forall x | x in s'.parents ensures x in s'.issued && exists g, i :: Placed(s', g, i, x) {
      var g, i :| Placed(s, g, i, x);
      assert ChainOk(s, g) && Placed(s', g, i, x);
    }
  }

  lemma SameLineage(s: Store, s': Store)
    requires Lineage(s) && s'.chains == s.chains && s'.parents == s.parents && s.issued <= s'.issued
    ensures Lineage(s')
  {
    forall g, i, x | Placed(s', g, i, x) ensures x in s'.parents && s'.parents[x] == s'.chains[g][i - 1] {
      assert Placed(s, g, i, x);
    }
    forall x | x in s'.parents ensures x in s'.issued && exists g, i :: Placed(s', g, i, x) {
      var g, i :| Placed(s, g, i, x);
      assert Placed(s', g, i, x);
    }
  }

  lemma OnlyIssuesExtend(s: Store, step: Step)
    requires Enabled(s, step) && !step.Login? && !step.Insert?
    ensures var s' := Apply(s, step); s'.chains == s.chains && s'.parents == s.parents && s'.issued == s.issued
  {
  }

  lemma StepKeepsLineage(s: Store, step: Step)
    requires Inv(s) && Lineage(s) && Enabled(s, step)
    ensures Lineage(Apply(s, step))
  {
    if step.Login? {
      LoginKeepsLineage(s, step.id, step.expires);
    } else if step.Insert? {
      InsertKeepsLineage(s, step.who, step.id, step.expires);
    } else {
      OnlyIssuesExtend(s, step);
      SameLineage(s, Apply(s, step));
    }
  }

  lemma {:induction false} RunKeepsLineage(s: Store, steps: seq<Step>, s': Store)
    requires Inv(s) && Lineage(s) && Runs(s, steps, s')
    ensures Lineage(s')
    decreases |steps|
  {
    if steps != [] {
      StepKeepsInv(s, steps[0]);
      StepKeepsLineage(s, steps[0]);
      RunKeepsLineage(Apply(s, steps[0]), steps[1..], s');
    }
  }

  /** Token `i` of a chain was made by spending the one before it. */
  predicate MadeFromPrevious(s: Store, chain: seq<TokenId>, i: int) {
    0 < i < |chain| && chain[i] in s.parents && s.parents[chain[i]] == chain[i - 1] && chain[i - 1] in s.spent
  }

  lemma ChainDescends(s: Store, f: FamilyId, i: int)
    requires Inv(s) && Lineage(s) && f in s.chains && 0 < i < |s.chains[f]|
    ensures MadeFromPrevious(s, s.chains[f], i)
  {
    var chain, j := s.chains[f], i - 1;
    assert ChainOk(s, f);
    assert Placed(s, f, i, chain[i]);
    assert chain[j] in s.spent;
  }

  /** In every interleaving the tokens of a family form one chain: every stored token
      is on it, each was made by spending the one before it, and only the last can
      be live. */
  lemma FamilyIsOneChain(steps: seq<Step>, s: Store, id: TokenId)
    requires Runs(EMPTY, steps, s) && id in s.tokens
    ensures s.tokens[id].family in s.chains && id in s.chains[s.tokens[id].family]
    ensures var chain := s.chains[s.tokens[id].family];
            && chain[0] == s.tokens[id].family && NoDup(chain)
            && (forall i :: 0 < i < |chain| ==> MadeFromPrevious(s, chain, i))
            && (Live(s, id) ==> LastOf(chain, id))
  {
    RunKeepsInv(EMPTY, steps, s);
    RunKeepsLineage(EMPTY, steps, s);
    assert TokenOk(s, id);
    var f := s.tokens[id].family;
    assert ChainOk(s, f);
    forall i | 0 < i < |s.chains[f]| ensures MadeFromPrevious(s, s.chains[f], i) {
      ChainDescends(s, f, i);
    }
  }

  /** No token is spent for two successors. */
  lemma NoTwoSuccessors(steps: seq<Step>, s: Store, a: TokenId, b: TokenId)
    requires Runs(EMPTY, steps, s) && a in s.parents && b in s.parents && s.parents[a] == s.parents[b]
    ensures a == b
  {
    RunKeepsInv(EMPTY, steps, s);
    RunKeepsLineage(EMPTY, steps, s);
    var f, i :| Placed(s, f, i, a);
    var g, j :| Placed(s, g, j, b);
    assert s.parents[a] in s.chains[f] && s.parents[a] in s.chains[g];
    assert ChainOk(s, f);
    assert i - 1 == j - 1;
  }

  /** No live token and nobody about to write one. */
  ghost predicate Dead(s: Store, f: FamilyId) {
    && f in s.issued
    && (forall id :: id in s.tokens && s.tokens[id].family == f ==> !Live(s, id))
    && (forall who :: who in s.callers ==> !InFlight(s, who, f))
  }

  /** A token is live after a step because it was before, or because the step
      wrote it. */
  lemma LiveComesFrom(s: Store, step: Step, id: TokenId)
    requires Enabled(s, step) && Live(Apply(s, step), id)
    ensures var f := Apply(s, step).tokens[id].family;
            || (Live(s, id) && s.tokens[id].family == f)
            || (step.Login? && step.id == id && f == id)
            || (step.Insert? && step.id == id && InFlight(s, step.who, f))
  {
  }

  lemma DeadTokensStay(s: Store, step: Step, f: FamilyId, id: TokenId)
    requires Enabled(s, step) && Dead(s, f)
    requires id in Apply(s, step).tokens && Apply(s, step).tokens[id].family == f
    ensures !Live(Apply(s, step), id)
  {
    if Live(Apply(s, step), id) {
      LiveComesFrom(s, step, id);
    }
  }

  /** A rotation is in flight after a step because it was before, or because the step
      spent a live token of its family. */
  lemma InFlightComesFrom(s: Store, step: Step, f: FamilyId, who: Caller)
    requires Enabled(s, step) && InFlight(Apply(s, step), who, f)
    ensures InFlight(s, who, f) ||
            (step.Consume? && step.who == who && s.callers[who].row.family == f && Live(s, s.callers[who].token))
  {
  }

  lemma NobodyTakesOff(s: Store, step: Step, f: FamilyId, who: Caller)
    requires Inv(s) && Enabled(s, step) && Dead(s, f) && who in Apply(s, step).callers
    ensures !InFlight(Apply(s, step), who, f)
  {
    assert who in s.callers ==> CallerOk(s, who);
    if InFlight(Apply(s, step), who, f) {
      InFlightComesFrom(s, step, f, who);
    }
  }

  lemma DeadStaysDead(s: Store, step: Step, f: FamilyId)
    requires Inv(s) && Enabled(s, step) && Dead(s, f)
    ensures Dead(Apply(s, step), f)
  {
    var s' := Apply(s, step);
    forall who | who in s'.callers ensures !InFlight(s', who, f) {
      NobodyTakesOff(s, step, f, who);
    }
    forall id | id in s'.tokens && s'.tokens[id].family == f ensures !Live(s', id) {
      DeadTokensStay(s, step, f, id);
    }
  }

  lemma {:induction false} DeadForever(s: Store, steps: seq<Step>, s': Store, f: FamilyId)
    requires Inv(s) && Dead(s, f) && Runs(s, steps, s')
    ensures LiveTokens(s', f) == {}
    decreases |steps|
  {
    if steps != [] {
      DeadStaysDead(s, steps[0], f);
      StepKeepsInv(s, steps[0]);
      DeadForever(Apply(s, steps[0]), steps[1..], s', f);
    }
  }

  // ---------------------------------------------------------------------------
  // What each step does to the rows
  // ---------------------------------------------------------------------------

  lemma RowsKeepWhoTheyAre(s: Store, step: Step, id: TokenId)
    requires Enabled(s, step) && id in s.tokens && id in s.issued
    ensures var t, t' := s.tokens, Apply(s, step).tokens;
            && (id !in t' <==> step.Cleanup? && t[id].expires < step.cutoff)
            && (id in t' ==> t'[id].family == t[id].family && t'[id].expires == t[id].expires)
  {
  }

  lemma RowsAreSpentOnlySo(s: Store, step: Step, id: TokenId)
    requires Enabled(s, step) && id in s.tokens && id in s.issued && id in Apply(s, step).tokens
    ensures var t, t' := s.tokens, Apply(s, step).tokens;
            && (t'[id].consumed <==>
                  t[id].consumed || (step.Consume? && s.callers[step.who].token == id && !t[id].revoked))
            && (t'[id].revoked <==>
                  t[id].revoked || (step.Revoke? && s.callers[step.who].family == t[id].family))
  {
  }

  /** A row never changes its family or its expiry. It is consumed by a winning
      consume of its own, revoked by a revoke of its own family, deleted by a cleanup
      past its expiry, and touched by nothing else. */
  lemma RowsChangeOnlySo(s: Store, step: Step, id: TokenId)
    requires Inv(s) && Enabled(s, step) && id in s.tokens
    ensures var t, t' := s.tokens, Apply(s, step).tokens;
            && (id !in t' <==> step.Cleanup? && t[id].expires < step.cutoff)
            && (id in t' ==>
                  && t'[id].family == t[id].family && t'[id].expires == t[id].expires
                  && (t'[id].consumed <==>
                        t[id].consumed || (step.Consume? && s.callers[step.who].token == id && !t[id].revoked))
                  && (t'[id].revoked <==>
                        t[id].revoked || (step.Revoke? && s.callers[step.who].family == t[id].family)))
  {
    assert TokenOk(s, id);
    RowsKeepWhoTheyAre(s, step, id);
    if id in Apply(s, step).tokens {
      RowsAreSpentOnlySo(s, step, id);
    }
  }

  /** New rows are a login's and an insert's, live, with the expiry asked for, in a
      family of their own or in the one of the token that was spent. */
  lemma NewRowsComeOnlySo(s: Store, step: Step, id: TokenId)
    requires Enabled(s, step) && id !in s.tokens
    ensures var t' := Apply(s, step).tokens;
            && (id in t' <==> (step.Login? || step.Insert?) && step.id == id)
            && (id in t' ==>
                  && t'[id].expires == step.expires && !t'[id].consumed && !t'[id].revoked
                  && t'[id].family == if step.Login? then id else s.callers[step.who].family)
  {
  }

  /** Nobody waits for anybody: whatever a caller is in the middle of it can go on with,
      an idle one can present or log out with any token, and a cleanup can run any
      time. */
  lemma NobodyIsStuck(s: Store, who: Caller, id: TokenId, unused: TokenId, at: Timestamp)
    requires unused !in s.issued
    ensures Enabled(s, Login(unused, at)) && Enabled(s, Cleanup(at))
    ensures if who !in s.callers then Enabled(s, Present(who, id, at)) && Enabled(s, Logout(who, id))
            else match s.callers[who]
                 case Done => Enabled(s, Present(who, id, at)) && Enabled(s, Logout(who, id))
                 case Found(_, _) => Enabled(s, Consume(who))
                 case Inserting(_, _) => Enabled(s, Insert(who, unused, at)) && Enabled(s, Abandon(who))
                 case Revoking(_) => Enabled(s, Revoke(who))
  {
  }

  /** Where a presented token leads: nowhere when it is unknown, revoked or expired; to
      a revoke of its family when it was consumed; to a consume otherwise. Losing that
      consume leads to a revoke as well, and so does a logout with a known token. */
  lemma WhereCallersGo(s: Store, step: Step)
    requires Inv(s) && Enabled(s, step) && (step.Present? || step.Consume? || step.Logout?)
    ensures var pc := Apply(s, step).callers[step.who];
            match step
            case Present(_, id, now) =>
              if id !in s.tokens then pc == Done
              else if s.tokens[id].consumed then pc == Revoking(s.tokens[id].family)
              else pc == if Live(s, id) && now < s.tokens[id].expires then Found(id, s.tokens[id]) else Done
            case Consume(who) =>
              var id := s.callers[who].token;
              pc == if Live(s, id) then Inserting(id, s.tokens[id].family)
                    else Revoking(s.callers[who].row.family)
            case Logout(_, id) => pc == if id in s.tokens then Revoking(s.tokens[id].family) else Done
            case _ => true
  {
    if step.Consume? {
      assert CallerOk(s, step.who);
    }
  }

  /** The steps that end a live token: its own consume, a revoke of its own family, a
      cleanup past its expiry. */
  predicate Ends(s: Store, step: Step, id: TokenId)
    requires Enabled(s, step) && id in s.tokens
  {
    match step
    case Consume(who) => s.callers[who].token == id
    case Revoke(who) => s.callers[who].family == s.tokens[id].family
    case Cleanup(cutoff) => s.tokens[id].expires < cutoff
    case _ => false
  }

  ghost predicate EndsIn(s: Store, steps: seq<Step>, s': Store, id: TokenId)
    requires Runs(s, steps, s')
    decreases |steps|
  {
    steps != [] &&
    ((id in s.tokens && Ends(s, steps[0], id)) || EndsIn(Apply(s, steps[0]), steps[1..], s', id))
  }

  lemma {:induction false} SpentStaysSpent(s: Store, steps: seq<Step>, s': Store, id: TokenId)
    requires Inv(s) && Runs(s, steps, s') && id in s.issued && !Live(s, id)
    ensures !Live(s', id)
    decreases |steps|
  {
    if steps != [] {
      if id in s.tokens {
        RowsChangeOnlySo(s, steps[0], id);
      } else {
        NewRowsComeOnlySo(s, steps[0], id);
      }
      StepKeepsInv(s, steps[0]);
      SpentStaysSpent(Apply(s, steps[0]), steps[1..], s', id);
    }
  }

  /** Over every run a live token is live at the end exactly when none of these
      happened to it, whatever happened to other tokens and families. */
  lemma {:induction false} StaysLiveIff(s: Store, steps: seq<Step>, s': Store, id: TokenId)
    requires Inv(s) && Runs(s, steps, s') && Live(s, id)
    ensures Live(s', id) <==> !EndsIn(s, steps, s', id)
    decreases |steps|
  {
    if steps != [] {
      var next := Apply(s, steps[0]);
      assert TokenOk(s, id);
      RowsChangeOnlySo(s, steps[0], id);
      StepKeepsInv(s, steps[0]);
      if Live(next, id) {
        StaysLiveIff(next, steps[1..], s', id);
      } else {
        SpentStaysSpent(next, steps[1..], s', id);
      }
    }
  }

  lemma RevokeKills(s: Store, who: Caller, steps: seq<Step>, s': Store)
    requires Inv(s) && Enabled(s, Revoke(who))
    requires Rotations(s, s.callers[who].family) == {}
    requires Runs(Apply(s, Revoke(who)), steps, s')
    ensures LiveTokens(s', s.callers[who].family) == {}
  {
    var f := s.callers[who].family;
    var s1 := Apply(s, Revoke(who));
    StepKeepsInv(s, Revoke(who));
    assert CallerOk(s, who);
    forall w | w in s1.callers ensures !InFlight(s1, w, f) {
      assert w in s.callers && InFlight(s, w, f) ==> w in Rotations(s, f);
    }
    DeadForever(s1, steps, s', f);
  }

  lemma RevokeMisses(s: Store, who: Caller, other: Caller) returns (steps: seq<Step>, s': Store)
    requires Enabled(s, Revoke(who)) && other in Rotations(s, s.callers[who].family)
    ensures Runs(Apply(s, Revoke(who)), steps, s')
    ensures LiveTokens(s', s.callers[who].family) != {}
  {
    var s1 := Apply(s, Revoke(who));
    var id := Unused(s1.issued);
    var step := Insert(other, id, 0);
    s' := Apply(s1, step);
    steps := [step];
    assert Runs(s', steps[1..], s');
    assert id in LiveTokens(s', s.callers[who].family);
  }

  /** Nothing that can happen next gives the family a live token again. */
  ghost predicate Final(s: Store, f: FamilyId) {
    forall steps, s' :: Runs(s, steps, s') ==> LiveTokens(s', f) == {}
  }

  /** A revoke is final, in every continuation, exactly when no rotation of the
      family is between its consume and its insert at that moment: such a rotation
      still writes a successor the revoke never saw. */
  lemma RevokeIsFinalIff(s: Store, who: Caller)
    requires Inv(s) && Enabled(s, Revoke(who))
    ensures Final(Apply(s, Revoke(who)), s.callers[who].family) <==> Rotations(s, s.callers[who].family) == {}
  {
    var f := s.callers[who].family;
    var s1 := Apply(s, Revoke(who));
    if Rotations(s, f) == {} {
      forall steps, s' | Runs(s1, steps, s') ensures LiveTokens(s', f) == {} {
        RevokeKills(s, who, steps, s');
      }
      assert Final(s1, f);
    } else {
      var other :| other in Rotations(s, f);
      var steps, s' := RevokeMisses(s, who, other);
      assert Runs(s1, steps, s') && LiveTokens(s', f) != {};
      assert !Final(s1, f);
    }
  }

  /** A fresh id always exists. */
  ghost function Unused(ids: set<nat>): (id: nat)
    ensures id !in ids
  {
    var bound := Bound(ids);
    bound
  }

  ghost function Bound(ids: set<nat>): (b: nat)
    ensures forall i :: i in ids ==> i < b
  {
    if ids == {} then 0
    else
      var x :| x in ids;
      var b := Bound(ids - {x});
      assert forall i :: i in ids ==> i == x || i in ids - {x};
      if x < b then b else x + 1
  }

  lemma RunsOne(s: Store, step: Step, rest: seq<Step>, s': Store)
    requires Enabled(s, step) && Runs(Apply(s, step), rest, s')
    ensures Runs(s, [step] + rest, s')
  {
    assert ([step] + rest)[1..] == rest;
  }

  /** Both callers have read the token and the winner has spent it. */
  function Raced(id: TokenId, winner: Caller, loser: Caller): Store {
    Store(map[id := Token(id, true, false, 1)],
          map[winner := Inserting(id, id), loser := Found(id, Token(id, false, false, 1))],
          {id}, map[id := [id]], [id], map[])
  }

  lemma RaceStarts(id: TokenId, winner: Caller, loser: Caller, rest: seq<Step>, s: Store)
    requires winner != loser && Runs(Raced(id, winner, loser), rest, s)
    ensures Runs(EMPTY,
                 [Login(id, 1)]
                 + ([Present(winner, id, 0)] + ([Present(loser, id, 0)] + ([Consume(winner)] + rest))), s)
  {
    var row := Token(id, false, false, 1);
    var s1 := Store(map[id := row], map[], {id}, map[id := [id]], [], map[]);
    var s2 := s1.(callers := map[winner := Found(id, row)]);
    var s3 := s1.(callers := map[winner := Found(id, row), loser := Found(id, row)]);
    assert Apply(s3, Consume(winner)) == Raced(id, winner, loser);
    RunsOne(s3, Consume(winner), rest, s);
    assert Apply(s2, Present(loser, id, 0)) == s3;
    RunsOne(s2, Present(loser, id, 0), [Consume(winner)] + rest, s);
    assert Apply(s1, Present(winner, id, 0)) == s2;
    RunsOne(s1, Present(winner, id, 0), [Present(loser, id, 0)] + ([Consume(winner)] + rest), s);
    assert Apply(EMPTY, Login(id, 1)) == s1;
    RunsOne(EMPTY, Login(id, 1), [Present(winner, id, 0)] + ([Present(loser, id, 0)] + ([Consume(winner)] + rest)), s);
  }

  lemma RaceEnds(id: TokenId, next: TokenId, winner: Caller, loser: Caller) returns (rest: seq<Step>, s: Store)
    requires id != next && winner != loser
    ensures Revoke(loser) in rest && Runs(Raced(id, winner, loser), rest, s)
    ensures s.tokens == map[id := Token(id, true, true, 1), next := Token(id, false, false, 1)]
  {
    var s4 := Raced(id, winner, loser);
    var s5 := s4.(callers := map[winner := Inserting(id, id), loser := Revoking(id)]);
    var s6 := s5.(tokens := map[id := Token(id, true, true, 1)],
                  callers := map[winner := Inserting(id, id), loser := Done]);
    assert Apply(s4, Consume(loser)) == s5;
    assert Apply(s5, Revoke(loser)) == s6;
    s := Apply(s6, Insert(winner, next, 1));
    RunsOne(s6, Insert(winner, next, 1), [], s);
    RunsOne(s5, Revoke(loser), [Insert(winner, next, 1)] + [], s);
    rest := [Consume(loser)] + ([Revoke(loser)] + ([Insert(winner, next, 1)] + []));
    RunsOne(s4, Consume(loser), [Revoke(loser)] + ([Insert(winner, next, 1)] + []), s);
    assert rest[1] == Revoke(loser);
  }

  lemma FourBefore(a: Step, b: Step, c: Step, d: Step, rest: seq<Step>)
    ensures forall x :: x in rest ==> x in [a] + ([b] + ([c] + ([d] + rest)))
  {
  }

  /** The race the design relies on: two callers present one token, the winner
      spends it, the loser revokes the family, and then the winner writes its
      successor. The family the loser took down is alive again. */
  lemma LosingTheRaceDoesNotKillTheFamily(id: TokenId, next: TokenId, winner: Caller, loser: Caller)
    returns (steps: seq<Step>, s: Store)
    requires id != next && winner != loser
    ensures Runs(EMPTY, steps, s)
    ensures Revoke(loser) in steps && id in s.tokens && s.tokens[id].revoked
    ensures LiveTokens(s, id) == {next}
  {
    var rest;
    rest, s := RaceEnds(id, next, winner, loser);
    RaceStarts(id, winner, loser, rest, s);
    steps := [Login(id, 1)] + ([Present(winner, id, 0)] + ([Present(loser, id, 0)] + ([Consume(winner)] + rest)));
    FourBefore(Login(id, 1), Present(winner, id, 0), Present(loser, id, 0), Consume(winner), rest);
    OneLive(id, next, s);
  }

  lemma OneLive(id: TokenId, next: TokenId, s: Store)
    requires id != next && s.tokens == map[id := Token(id, true, true, 1), next := Token(id, false, false, 1)]
    ensures LiveTokens(s, id) == {next}
  {
  }

  // ---------------------------------------------------------------------------
  // One caller running alone
  // ---------------------------------------------------------------------------

  datatype Outcome = Issued(id: TokenId) | Unauthorized | TokenReused

  /** The `refresh_tokens` table with its guarded statements, and the handlers
      that string them together. */
  class RefreshTokens {
    var tokens: map<TokenId, Token>

    constructor ()
      ensures tokens == map[]
    {
      tokens := map[];
    }

    /** One winner per token: the guard and the write are one statement. */
    method TryConsume(id: TokenId) returns (won: bool)
      modifies this
      ensures won <==> id in old(tokens) && !old(tokens)[id].consumed && !old(tokens)[id].revoked
      ensures tokens == if won then old(tokens)[id := old(tokens)[id].(consumed := true)] else old(tokens)
    {
      won := id in tokens && !tokens[id].consumed && !tokens[id].revoked;
      if won {
        tokens := tokens[id := tokens[id].(consumed := true)];
      }
    }

    method RevokeAll(f: FamilyId)
      modifies this
      ensures tokens == RevokeFamily(old(tokens), f)
      ensures tokens.Keys == old(tokens).Keys
      ensures forall id :: id in tokens ==>
                tokens[id] == if old(tokens)[id].family == f then old(tokens)[id].(revoked := true) else old(tokens)[id]
    {
      tokens := RevokeFamily(tokens, f);
    }

    /** A first token opens a family of its own. */
    method IssueSession(id: TokenId, expires: Timestamp)
      modifies this
      ensures tokens == old(tokens)[id := Token(id, false, false, expires)]
      ensures (forall x :: x in old(tokens) ==> old(tokens)[x].family != id) ==>
                (set x | x in tokens && tokens[x].family == id) == {id}
    {
      tokens := tokens[id := Token(id, false, false, expires)];
    }

    /** From the consume on. `row` is what was read before, and the table may have
        moved since: losing the guarded write counts as reuse. */
    method FinishRotation(presented: TokenId, row: Token, next: TokenId, expires: Timestamp)
      returns (outcome: Outcome)
      modifies this
      ensures outcome ==
                if presented in old(tokens) && !old(tokens)[presented].consumed && !old(tokens)[presented].revoked
                then Issued(next) else TokenReused
      ensures outcome.TokenReused? ==>
                && tokens.Keys == old(tokens).Keys
                && forall id :: id in tokens ==>
                     tokens[id] == if old(tokens)[id].family == row.family then old(tokens)[id].(revoked := true)
                                   else old(tokens)[id]
      ensures outcome.Issued? ==>
                tokens == old(tokens)[presented := old(tokens)[presented].(consumed := true)]
                                     [next := Token(row.family, false, false, expires)]
    {
      var won := TryConsume(presented);
      if !won {
        RevokeAll(row.family);
        return TokenReused;
      }
      tokens := tokens[next := Token(row.family, false, false, expires)];
      return Issued(next);
    }

    /** Reuse takes the family down; a usable token is exchanged for one successor
        of the same family; anything else changes nothing. */
    method RotateRefresh(presented: TokenId, now: Timestamp, next: TokenId, expires: Timestamp)
      returns (outcome: Outcome)
      modifies this
      ensures outcome.TokenReused? <==> presented in old(tokens) && old(tokens)[presented].consumed
      ensures outcome.Issued? <==> presented in old(tokens) && !old(tokens)[presented].consumed
                                   && !old(tokens)[presented].revoked && old(tokens)[presented].expires > now
      ensures outcome.TokenReused? ==>
                && tokens.Keys == old(tokens).Keys
                && forall id :: id in tokens ==>
                     tokens[id] == if old(tokens)[id].family == old(tokens)[presented].family
                                   then old(tokens)[id].(revoked := true) else old(tokens)[id]
      ensures outcome.Issued? ==>
                && outcome.id == next
                && tokens == old(tokens)[presented := old(tokens)[presented].(consumed := true)]
                                        [next := Token(old(tokens)[presented].family, false, false, expires)]
      ensures outcome.Unauthorized? ==> tokens == old(tokens)
    {
      if presented !in tokens {
        return Unauthorized;
      }
      var row := tokens[presented];
      if row.consumed {
        RevokeAll(row.family);
        return TokenReused;
      }
      if row.revoked || row.expires <= now {
        return Unauthorized;
      }
      outcome := FinishRotation(presented, row, next, expires);
    }

    method RevokeSession(presented: TokenId)
      modifies this
      ensures tokens.Keys == old(tokens).Keys
      ensures forall id :: id in tokens ==>
                tokens[id] == if presented in old(tokens) && old(tokens)[id].family == old(tokens)[presented].family
                              then old(tokens)[id].(revoked := true) else old(tokens)[id]
    {
      if presented in tokens {
        RevokeAll(tokens[presented].family);
      }
    }

    method DeleteExpired(cutoff: Timestamp)
      modifies this
      ensures tokens == map id | id in old(tokens) && old(tokens)[id].expires >= cutoff :: old(tokens)[id]
    {
      tokens := map id | id in tokens && tokens[id].expires >= cutoff :: tokens[id];
    }
  }
}

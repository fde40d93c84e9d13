/**
 * The RippleLens session store (app/app/store/gameStore.ts): simulated
 * long/short positions, the three realized-PnL accumulators (user, lenders,
 * protocol), the lend and borrow records, and the simple wallet and user
 * fields. JavaScript numbers are modelled as exact reals.
 */
module GameStore {
  import opened Wrappers

  datatype Side = Long | Short

  /** A simulated position; `openedAt` is the clock reading when it was added. */
  datatype Position = Position(id: string, side: Side, size: real, entryPrice: real, openedAt: int)

  /** One lend or borrow record. */
  datatype Record = Record(id: string, amount: real, createdAt: int)

  /** What closing one position realizes: its PnL and each pool's share of it. */
  datatype Settlement = Settlement(pnl: real, userDelta: real, lenderDelta: real, protocolDelta: real)

  /** Shares of a profit; a loss is borne by the user alone. */
  const UserShare: real := 0.8
  const LenderShare: real := 0.15
  const ProtocolShare: real := 0.05

  // ---------------------------------------------------------------------
  // Settlement
  // ---------------------------------------------------------------------

  /** Profit (positive) or loss of closing `p` at `closePrice`, by direction. */
  function DirectionalPnl(p: Position, closePrice: real): (pnl: real)
    ensures pnl == (closePrice - p.entryPrice) * p.size * (if p.side == Long then 1.0 else -1.0)
    ensures closePrice == p.entryPrice ==> pnl == 0.0
  {
    var diff := if p.side == Long then closePrice - p.entryPrice else p.entryPrice - closePrice;
    diff * p.size
  }

  /**
   * The asymmetric split of a PnL: a profit is shared 80/15/5 between the
   * user, the lenders and the protocol; a loss or a zero goes to the user.
   */
  function Split(pnl: real): (s: Settlement)
    ensures s.pnl == pnl
    ensures s.userDelta + s.lenderDelta + s.protocolDelta == pnl
    ensures pnl > 0.0 ==>
      s.userDelta == pnl * 0.8 && s.lenderDelta == pnl * 0.15 && s.protocolDelta == pnl * 0.05
    ensures pnl <= 0.0 ==> s.userDelta == pnl && s.lenderDelta == 0.0 && s.protocolDelta == 0.0
    ensures s.lenderDelta >= 0.0 && s.protocolDelta >= 0.0
    ensures s.lenderDelta == 3.0 * s.protocolDelta
    ensures pnl > 0.0 ==> 0.0 < s.protocolDelta < s.lenderDelta < s.userDelta
  {
    if pnl > 0.0 then
      Settlement(pnl, pnl * UserShare, pnl * LenderShare, pnl * ProtocolShare)
    else
      Settlement(pnl, pnl, 0.0, 0.0)
  }

  /** The settlement of closing `p` at `closePrice`. */
  function Settle(p: Position, closePrice: real): (s: Settlement)
    ensures s.pnl == DirectionalPnl(p, closePrice)
    ensures s.userDelta + s.lenderDelta + s.protocolDelta == s.pnl
    ensures s.lenderDelta >= 0.0 && s.protocolDelta >= 0.0
    ensures s.pnl <= 0.0 ==> s.userDelta == s.pnl
  {
    Split(DirectionalPnl(p, closePrice))
  }

  /**
   * A long and a short position with the same size and entry price realize
   * opposite PnL at every close price; closing at the entry price realizes nothing.
   */
  lemma PnlLongShortOpposite(id: string, size: real, entryPrice: real, openedAt: int, closePrice: real)
    ensures DirectionalPnl(Position(id, Long, size, entryPrice, openedAt), closePrice)
         == -DirectionalPnl(Position(id, Short, size, entryPrice, openedAt), closePrice)
    ensures DirectionalPnl(Position(id, Long, size, entryPrice, openedAt), entryPrice) == 0.0
    ensures DirectionalPnl(Position(id, Short, size, entryPrice, openedAt), entryPrice) == 0.0
  {
  }

  /**
   * For a positive size, a long profits exactly when the price rose and a
   * short exactly when it fell.
   */
  lemma PnlSign(p: Position, closePrice: real)
    requires p.size > 0.0
    ensures p.side == Long ==> (DirectionalPnl(p, closePrice) > 0.0 <==> closePrice > p.entryPrice)
    ensures p.side == Short ==> (DirectionalPnl(p, closePrice) > 0.0 <==> closePrice < p.entryPrice)
  {
  }

  /** Worked settlements: a long profit, a short profit and a loss. */
  lemma SettleExamples()
    ensures Settle(Position("a", Long, 10.0, 1.0, 0), 1.1) == Settlement(1.0, 0.8, 0.15, 0.05)
    ensures Settle(Position("b", Short, 5.0, 2.0, 0), 1.5) == Settlement(2.5, 2.0, 0.375, 0.125)
    ensures Settle(Position("c", Long, 10.0, 2.0, 0), 1.0) == Settlement(-10.0, -10.0, 0.0, 0.0)
  {
  }

  // ---------------------------------------------------------------------
  // The position list: `find` and `filter` by id
  // ---------------------------------------------------------------------

  /** The first position with the given id, as the array's `find` returns it. */
  function Find(ps: seq<Position>, id: string): (r: Option<Position>)
    ensures r.None? <==> forall k :: 0 <= k < |ps| ==> ps[k].id != id
    ensures r.Some? ==> r.value.id == id && r.value in ps
  {
    if ps == [] then None
    else if ps[0].id == id then Some(ps[0])
    else Find(ps[1..], id)
  }

  /** `Find` returns the match of lowest index, not any match. */
  lemma {:induction false} FindFirst(ps: seq<Position>, id: string, k: nat)
    requires k < |ps| && ps[k].id == id
    requires forall j :: 0 <= j < k ==> ps[j].id != id
    ensures Find(ps, id) == Some(ps[k])
  {
    if k > 0 {
      FindFirst(ps[1..], id, k - 1);
    }
  }

  /** Every position whose id differs, in order, as the array's `filter` keeps them. */
  function RemoveId(ps: seq<Position>, id: string): (r: seq<Position>)
    ensures |r| <= |ps|
    ensures forall p :: p in r <==> p in ps && p.id != id
  {
    if ps == [] then []
    else if ps[0].id == id then RemoveId(ps[1..], id)
    else [ps[0]] + RemoveId(ps[1..], id)
  }

  /** Filtering a concatenation filters each part: the filter keeps relative order. */
  lemma {:induction false} RemoveIdAppend(a: seq<Position>, b: seq<Position>, id: string)
    ensures RemoveId(a + b, id) == RemoveId(a, id) + RemoveId(b, id)
  {
    if a == [] {
      assert a + b == b;
    } else {
      assert (a + b)[1..] == a[1..] + b;
      RemoveIdAppend(a[1..], b, id);
    }
  }

  /** Two kept positions appear in the filtered list in their original order. */
  lemma RemoveIdKeepsOrder(ps: seq<Position>, id: string, i: nat, j: nat)
    requires i < j < |ps| && ps[i].id != id && ps[j].id != id
    ensures exists i', j' :: 0 <= i' < j' < |RemoveId(ps, id)|
                          && RemoveId(ps, id)[i'] == ps[i] && RemoveId(ps, id)[j'] == ps[j]
  {
    var a, m, c := ps[..i], ps[i + 1..j], ps[j + 1..];
    assert ps == a + ([ps[i]] + (m + ([ps[j]] + c)));
    RemoveIdAppend(a, [ps[i]] + (m + ([ps[j]] + c)), id);
    RemoveIdAppend([ps[i]], m + ([ps[j]] + c), id);
    RemoveIdAppend(m, [ps[j]] + c, id);
    RemoveIdAppend([ps[j]], c, id);
    assert RemoveId([ps[i]], id) == [ps[i]];
    assert RemoveId([ps[j]], id) == [ps[j]];
    var r := RemoveId(ps, id);
    var ra, rm := RemoveId(a, id), RemoveId(m, id);
    assert r == ra + ([ps[i]] + (rm + ([ps[j]] + RemoveId(c, id))));
    assert r[|ra|] == ps[i];
    assert r[|ra| + 1 + |rm|] == ps[j];
  }

  /** Every position with another id is kept as often as it occurred. */
  lemma {:induction false} RemoveIdCount(ps: seq<Position>, id: string, p: Position)
    ensures multiset(RemoveId(ps, id))[p] == if p.id == id then 0 else multiset(ps)[p]
  {
    if ps != [] {
      RemoveIdCount(ps[1..], id, p);
      assert ps == [ps[0]] + ps[1..];
    }
  }

  /** With no position of that id the filter is the identity. */
  lemma {:induction false} RemoveIdAbsent(ps: seq<Position>, id: string)
    requires forall k :: 0 <= k < |ps| ==> ps[k].id != id
    ensures RemoveId(ps, id) == ps
  {
    if ps != [] {
      RemoveIdAbsent(ps[1..], id);
    }
  }

  /** With a position of that id the filter drops at least one entry. */
  lemma {:induction false} RemoveIdShrinks(ps: seq<Position>, id: string)
    requires Find(ps, id).Some?
    ensures |RemoveId(ps, id)| < |ps|
  {
    if ps[0].id != id {
      RemoveIdShrinks(ps[1..], id);
    }
  }

  // ---------------------------------------------------------------------
  // The store
  // ---------------------------------------------------------------------

  /** The session state and its actions; each action replaces the fields it names. */
  class Store {
    var userEmail: Option<string>
    var score: real
    var flareConnected: bool
    var flareAddress: Option<string>
    var positions: seq<Position>
    var pnlUser: real
    var pnlLenders: real
    var pnlProtocol: real
    var lends: seq<Record>
    var borrows: seq<Record>

    /**
     * The pools only ever receive their 15% and 5% shares of profits, so they
     * stay non-negative and the lenders hold exactly three times the protocol.
     */
    ghost predicate Valid()
      reads this
    {
      pnlLenders >= 0.0 && pnlProtocol >= 0.0 && pnlLenders == 3.0 * pnlProtocol
    }

    constructor ()
      ensures Valid()
      ensures userEmail == None && score == 0.0
      ensures !flareConnected && flareAddress == None
      ensures positions == [] && pnlUser == 0.0 && pnlLenders == 0.0 && pnlProtocol == 0.0
      ensures lends == [] && borrows == []
    {
      userEmail, score := None, 0.0;
      flareConnected, flareAddress := false, None;
      positions := [];
      pnlUser, pnlLenders, pnlProtocol := 0.0, 0.0, 0.0;
      lends, borrows := [], [];
    }

    method SetUserEmail(email: Option<string>)
      requires Valid()
      modifies this`userEmail
      ensures Valid() && userEmail == email
    {
      userEmail := email;
    }

    method SetScore(s: real)
      requires Valid()
      modifies this`score
      ensures Valid() && score == s
    {
      score := s;
    }

    method SetFlareConnected(v: bool)
      requires Valid()
      modifies this`flareConnected
      ensures Valid() && flareConnected == v
    {
      flareConnected := v;
    }

    method SetFlareAddress(address: Option<string>)
      requires Valid()
      modifies this`flareAddress
      ensures Valid() && flareAddress == address
    {
      flareAddress := address;
    }

    /**
     * Appends a position opened at `now`. Nothing is validated: a non-positive
     * size, a repeated id or a second open position are all accepted.
     */
    method AddPosition(id: string, side: Side, size: real, entryPrice: real, now: int)
      requires Valid()
      modifies this`positions
      ensures Valid()
      ensures |positions| == |old(positions)| + 1
      ensures positions[..|old(positions)|] == old(positions)
      ensures positions[|positions| - 1] == Position(id, side, size, entryPrice, now)
    {
      positions := positions + [Position(id, side, size, entryPrice, now)];
    }

    /**
     * Closes the first position with the given id at `closePrice`: realizes
     * its PnL into the three accumulators and drops every position with that
     * id. An unknown id leaves the store as it was.
     */
    method ClosePosition(id: string, closePrice: real)
      requires Valid()
      modifies this`positions, this`pnlUser, this`pnlLenders, this`pnlProtocol
      ensures Valid()
      ensures pnlLenders >= old(pnlLenders) && pnlProtocol >= old(pnlProtocol)
      ensures match Find(old(positions), id)
        case None =>
          && positions == old(positions)
          && pnlUser == old(pnlUser) && pnlLenders == old(pnlLenders) && pnlProtocol == old(pnlProtocol)
        case Some(p) =>
          var s := Settle(p, closePrice);
          && positions == RemoveId(old(positions), id)
          && (forall q :: q in positions ==> q.id != id)
          && pnlUser == old(pnlUser) + s.userDelta
          && pnlLenders == old(pnlLenders) + s.lenderDelta
          && pnlProtocol == old(pnlProtocol) + s.protocolDelta
    {
      var found := Find(positions, id);
      if found.None? {
        return;
      }
      var pos := found.value;
      var isLong := pos.side == Long;
      var diff := if isLong then closePrice - pos.entryPrice else pos.entryPrice - closePrice;
      var pnl := diff * pos.size;

      var user, lenders, protocol := pnlUser, pnlLenders, pnlProtocol;
      if pnl > 0.0 {
        var u, l, t := pnl * UserShare, pnl * LenderShare, pnl * ProtocolShare;
        user := user + u;
        lenders := lenders + l;
        protocol := protocol + t;
      } else {
        user := user + pnl;
      }

      positions := RemoveId(positions, id);
      pnlUser, pnlLenders, pnlProtocol := user, lenders, protocol;
    }

    /** Appends a lend record; `id` and `now` stand for the generated id and clock. */
    method AddLend(amount: real, id: string, now: int)
      requires Valid()
      modifies this`lends
      ensures Valid() && lends == old(lends) + [Record(id, amount, now)]
    {
      lends := lends + [Record(id, amount, now)];
    }

    /** Appends a borrow record; `id` and `now` stand for the generated id and clock. */
    method AddBorrow(amount: real, id: string, now: int)
      requires Valid()
      modifies this`borrows
      ensures Valid() && borrows == old(borrows) + [Record(id, amount, now)]
    {
      borrows := borrows + [Record(id, amount, now)];
    }
  }

  // ---------------------------------------------------------------------
  // Sessions on a fresh store, derived from the actions' contracts alone
  // ---------------------------------------------------------------------

  /** A long of size 10 opened at 1.00 and closed at 1.10 realizes 1.0, split 0.8/0.15/0.05. */
  method LongProfitSession() returns (user: real, lenders: real, protocol: real, open: nat)
    ensures user == 0.8 && lenders == 0.15 && protocol == 0.05 && open == 0
  {
    var store := new Store();
    store.AddPosition("p1", Long, 10.0, 1.0, 1000);
    store.ClosePosition("p1", 1.1);
    user, lenders, protocol, open := store.pnlUser, store.pnlLenders, store.pnlProtocol, |store.positions|;
  }

  /** A loss after a profit lowers only the user's total; the pools keep their shares. */
  method ProfitThenLossSession() returns (user: real, lenders: real, protocol: real)
    ensures user == -8.0 && lenders == 0.375 && protocol == 0.125
  {
    var store := new Store();
    store.AddPosition("s", Short, 5.0, 2.0, 1000);
    store.ClosePosition("s", 1.5);
    store.AddPosition("l", Long, 10.0, 2.0, 2000);
    store.ClosePosition("l", 1.0);
    store.ClosePosition("unknown", 3.0);
    user, lenders, protocol := store.pnlUser, store.pnlLenders, store.pnlProtocol;
  }

  /**
   * Two positions sharing an id: closing settles only the first (a long
   * profit of 1.0) while the second (a short that would have lost 1.0)
   * disappears unsettled.
   */
  method DuplicateIdSession() returns (user: real, open: nat)
    ensures user == 0.8 && open == 0
  {
    var store := new Store();
    store.AddPosition("dup", Long, 1.0, 1.0, 1000);
    store.AddPosition("dup", Short, 1.0, 1.0, 2000);
    assert store.positions == [Position("dup", Long, 1.0, 1.0, 1000), Position("dup", Short, 1.0, 1.0, 2000)];
    store.ClosePosition("dup", 2.0);
    user, open := store.pnlUser, |store.positions|;
  }
}

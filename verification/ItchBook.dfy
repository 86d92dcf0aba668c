/**
 The order-level book: live orders by reference, price ladders per symbol, and the top of
 book pushed to the market board when it changes. The ladders are incremental; they are
 proved to agree with the live orders after every message.
 */
module ItchBooks {
  import opened Arithmetic
  import opened LevelBooks

  type Locate = x: nat | x < 65536
  const INVALID: nat := 0xFFFF_FFFF    // no symbol

  datatype Order = Order(price: nat, shares: nat, locate: Locate, side: char)

  type Orders = map<nat, Order>

  // ---- the aggregate a ladder stands for ----

  /** Which symbols have ladders, and which symbol a locate code means. */
  datatype Config = Config(symOf: seq<nat>, quoted: seq<bool>) {
    ghost predicate Ok() {
      |symOf| == 65536 && |quoted| <= INVALID && forall l | 0 <= l < |symOf| :: symOf[l] == INVALID || symOf[l] < |quoted|
    }

    /** The locate's symbol has ladders. */
    predicate Tracks(l: Locate)
      requires Ok()
    {
      symOf[l] != INVALID && quoted[symOf[l]]
    }
  }

  /** An order's share of the quantity at (symbol, side, price). */
  ghost function Share(o: Order, cfg: Config, sym: nat, bid: bool, price: nat): nat {
    if o.locate < |cfg.symOf| && cfg.symOf[o.locate] == sym && (o.side == 'B') == bid && o.price == price
    then o.shares else 0
  }

  /** The shares of all live orders at (symbol, side, price). */
  ghost function Total(orders: Orders, cfg: Config, sym: nat, bid: bool, price: nat): nat
    decreases orders.Keys
  {
    if orders == map[] then 0
    else
      var k :| k in orders;
      Share(orders[k], cfg, sym, bid, price) + Total(orders - {k}, cfg, sym, bid, price)
  }

  lemma {:induction false} TotalRemove(orders: Orders, k: nat, cfg: Config, sym: nat, bid: bool, price: nat)
    requires k in orders
    ensures Total(orders, cfg, sym, bid, price)
         == Share(orders[k], cfg, sym, bid, price) + Total(orders - {k}, cfg, sym, bid, price)
    decreases orders.Keys
  {
    var j :| j in orders && Total(orders, cfg, sym, bid, price)
         == Share(orders[j], cfg, sym, bid, price) + Total(orders - {j}, cfg, sym, bid, price);
    if j != k {
      TotalRemove(orders - {j}, k, cfg, sym, bid, price);
      TotalRemove(orders - {k}, j, cfg, sym, bid, price);
      assert orders - {j} - {k} == orders - {k} - {j};
    }
  }

  lemma {:induction false} TotalPut(orders: Orders, k: nat, o: Order, cfg: Config, sym: nat, bid: bool, price: nat)
    ensures Total(orders[k := o], cfg, sym, bid, price)
         == Share(o, cfg, sym, bid, price) + Total(orders - {k}, cfg, sym, bid, price)
  {
    TotalRemove(orders[k := o], k, cfg, sym, bid, price);
    assert orders[k := o] - {k} == orders - {k};
  }

  /** Some live order stands behind every positive total. */
  lemma {:induction false} TotalPositive(orders: Orders, cfg: Config, sym: nat, bid: bool, price: nat)
    ensures Total(orders, cfg, sym, bid, price) > 0 <==> exists k :: k in orders && Share(orders[k], cfg, sym, bid, price) > 0
    decreases orders.Keys
  {
    if orders != map[] {
      var j :| j in orders && Total(orders, cfg, sym, bid, price)
           == Share(orders[j], cfg, sym, bid, price) + Total(orders - {j}, cfg, sym, bid, price);
      TotalPositive(orders - {j}, cfg, sym, bid, price);
      forall k | k in orders && Share(orders[k], cfg, sym, bid, price) > 0
        ensures Total(orders, cfg, sym, bid, price) > 0
      {
        TotalRemove(orders, k, cfg, sym, bid, price);
      }
      if k :| k in orders - {j} && Share((orders - {j})[k], cfg, sym, bid, price) > 0 {
        assert k in orders && Share(orders[k], cfg, sym, bid, price) > 0;
      }
    }
  }

  /** A ladder shows exactly the live shares at every price. */
  ghost predicate Agrees(lv: seq<Level>, orders: Orders, cfg: Config, sym: nat, bid: bool) {
    forall p :: QtyAt(lv, p) == Total(orders, cfg, sym, bid, p)
  }

  /** An order is visible in some ladder. */
  predicate Counted(o: Order, cfg: Config)
    requires cfg.Ok()
  {
    o.shares > 0 && cfg.Tracks(o.locate)
  }

  // ---- all ladders as a value ----

  datatype Sides = Sides(bids: seq<Level>, asks: seq<Level>) {
    function Of(bid: bool): seq<Level> { if bid then bids else asks }
  }

  type View = seq<Sides>

  /** Every ladder of every quoted symbol agrees with the live orders. */
  ghost predicate Consistent(view: View, orders: Orders, cfg: Config) {
    forall s, bid | 0 <= s < |view| && s < |cfg.quoted| && cfg.quoted[s] ::
      Agrees(view[s].Of(bid), orders, cfg, s, bid)
  }

  /** `view'` is `view` with the ladder of (s, bid) showing `q` at price `t`. */
  ghost predicate Adjusted(view': View, view: View, s: nat, bid: bool, t: nat, q: nat) {
    && s < |view| == |view'|
    && Shows(view'[s].Of(bid), view[s].Of(bid), t, q)
    && view'[s].Of(!bid) == view[s].Of(!bid)
    && forall r | 0 <= r < |view| && r != s :: view'[r] == view[r]
  }

  lemma {:induction false} AdjustedQty(view': View, view: View, s: nat, bid: bool, t: nat, q: nat, r: nat, b: bool, p: nat)
    requires Adjusted(view', view, s, bid, t, q) && r < |view|
    ensures QtyAt(view'[r].Of(b), p) == if r == s && b == bid && p == t then q else QtyAt(view[r].Of(b), p)
  {
  }

  /** The ladder of an order's symbol, if it has one, changed by `qty` shares; nothing else did. */
  ghost predicate LadderChange(view': View, view: View, cfg: Config, l: Locate, bid: bool, price: nat, qty: nat, plus: bool)
    requires cfg.Ok()
  {
    && |view'| == |view|
    && (forall k: Locate :: cfg.Tracks(k) ==> cfg.symOf[k] < |view|)
    && if cfg.Tracks(l) then
         var s := cfg.symOf[l];
         var q := QtyAt(view[s].Of(bid), price);
         Adjusted(view', view, s, bid, price, if plus then q + qty else Minus(q, qty))
       else view' == view
  }

  /** Storing an order (its ref new, or that of an order no ladder shows) and adding it to its ladder. */
  lemma {:induction false} AddAt(view: View, view': View, orders: Orders, ref: nat, o: Order, cfg: Config,
                                 r: nat, b: bool, p: nat)
    requires cfg.Ok() && r < |view| && r < |cfg.quoted| && cfg.quoted[r]
    requires Consistent(view, orders, cfg)
    requires LadderChange(view', view, cfg, o.locate, o.side == 'B', o.price, o.shares, true)
    ensures QtyAt(view'[r].Of(b), p) - Total(orders[ref := o], cfg, r, b, p)
         == if ref in orders then Share(orders[ref], cfg, r, b, p) else 0
  {
    TotalPut(orders, ref, o, cfg, r, b, p);
    if ref in orders {
      TotalRemove(orders, ref, cfg, r, b, p);
    } else {
      assert orders - {ref} == orders;
    }
    assert Agrees(view[r].Of(b), orders, cfg, r, b);
    if cfg.Tracks(o.locate) {
      var s := cfg.symOf[o.locate];
      AdjustedQty(view', view, s, o.side == 'B', o.price, QtyAt(view[s].Of(o.side == 'B'), o.price) + o.shares, r, b, p);
    }
  }

  /** An add keeps the books consistent exactly when it does not overwrite a visible order. */
  lemma {:induction false} AddConsistent(view: View, view': View, orders: Orders, ref: nat, o: Order, cfg: Config)
    requires cfg.Ok() && LadderChange(view', view, cfg, o.locate, o.side == 'B', o.price, o.shares, true)
    ensures Consistent(view, orders, cfg) ==>
              (Consistent(view', orders[ref := o], cfg) <==> (ref !in orders || !Counted(orders[ref], cfg)))
  {
    var orders' := orders[ref := o];
    if Consistent(view, orders, cfg) {
      if ref !in orders || !Counted(orders[ref], cfg) {
        forall s, b | 0 <= s < |view'| && s < |cfg.quoted| && cfg.quoted[s] ensures Agrees(view'[s].Of(b), orders', cfg, s, b) {
          forall p ensures QtyAt(view'[s].Of(b), p) == Total(orders', cfg, s, b, p) {
            AddAt(view, view', orders, ref, o, cfg, s, b, p);
          }
        }
      } else {
        var x := orders[ref];
        var s, b := cfg.symOf[x.locate], x.side == 'B';
        AddAt(view, view', orders, ref, o, cfg, s, b, x.price);
        assert !Agrees(view'[s].Of(b), orders', cfg, s, b);
      }
    }
  }

  /** The orders after `take` shares of `ref` are gone, the order dropped when it empties. */
  function Reduced(orders: Orders, ref: nat, shares: nat): Orders
    requires ref in orders
  {
    var o := orders[ref];
    if shares >= o.shares then orders - {ref} else orders[ref := o.(shares := o.shares - shares)]
  }

  lemma {:induction false} ReduceTotal(orders: Orders, ref: nat, shares: nat, cfg: Config, s: nat, b: bool, p: nat)
    requires ref in orders
    ensures Total(Reduced(orders, ref, shares), cfg, s, b, p) + Share(orders[ref].(shares := Min(shares, orders[ref].shares)), cfg, s, b, p)
         == Total(orders, cfg, s, b, p)
  {
    var o := orders[ref];
    TotalRemove(orders, ref, cfg, s, b, p);
    if shares < o.shares {
      TotalPut(orders, ref, o.(shares := o.shares - shares), cfg, s, b, p);
    }
  }

  /** Executions, cancels and deletes keep the books consistent. */
  lemma {:induction false} ReduceConsistent(view: View, view': View, orders: Orders, ref: nat, shares: nat, cfg: Config)
    requires cfg.Ok() && ref in orders
    requires LadderChange(view', view, cfg, orders[ref].locate, orders[ref].side == 'B', orders[ref].price,
                          Min(shares, orders[ref].shares), false)
    ensures Consistent(view, orders, cfg) ==> Consistent(view', Reduced(orders, ref, shares), cfg)
  {
    var o, orders' := orders[ref], Reduced(orders, ref, shares);
    if Consistent(view, orders, cfg) {
      forall s, b | 0 <= s < |view'| && s < |cfg.quoted| && cfg.quoted[s] ensures Agrees(view'[s].Of(b), orders', cfg, s, b) {
        assert Agrees(view[s].Of(b), orders, cfg, s, b);
        forall p ensures QtyAt(view'[s].Of(b), p) == Total(orders', cfg, s, b, p) {
          ReduceTotal(orders, ref, shares, cfg, s, b, p);
          if cfg.Tracks(o.locate) {
            var t := cfg.symOf[o.locate];
            AdjustedQty(view', view, t, o.side == 'B', o.price,
                        Minus(QtyAt(view[t].Of(o.side == 'B'), o.price), Min(shares, o.shares)), s, b, p);
          }
        }
      }
    }
  }

  // ---- the published top of book ----

  datatype Top = Top(bid: nat, bidQty: nat, ask: nat, askQty: nat)

  function TopOf(b: Sides): Top {
    Top(BestPrice(b.bids), BestQty(b.bids), BestPrice(b.asks), BestQty(b.asks))
  }

  /** No live order has shares on this side of the symbol. */
  ghost predicate NoneLive(orders: Orders, cfg: Config, sym: nat, bid: bool) {
    forall k, p: nat :: k in orders ==> Share(orders[k], cfg, sym, bid, p) == 0
  }

  /** (price, qty) is the best of the live orders on one side of a symbol; (0, 0) without any. */
  ghost predicate IsBest(price: nat, qty: nat, orders: Orders, cfg: Config, sym: nat, bid: bool) {
    if NoneLive(orders, cfg, sym, bid) then price == 0 && qty == 0
    else
      && qty == Total(orders, cfg, sym, bid, price) > 0
      && forall k, p: nat | k in orders && Share(orders[k], cfg, sym, bid, p) > 0 :: if bid then p <= price else price <= p
  }

  lemma {:induction false} NoneLiveIsEmpty(lv: seq<Level>, orders: Orders, cfg: Config, sym: nat, bid: bool)
    requires IsLadder(lv, bid) && Agrees(lv, orders, cfg, sym, bid)
    ensures NoneLive(orders, cfg, sym, bid) <==> lv == []
  {
    TouchIsBest(lv, bid);
    if lv == [] {
      forall k, p: nat | k in orders ensures Share(orders[k], cfg, sym, bid, p) == 0 {
        assert QtyAt(lv, p) == 0 == Total(orders, cfg, sym, bid, p);
        TotalPositive(orders, cfg, sym, bid, p);
      }
    } else {
      assert Total(orders, cfg, sym, bid, BestPrice(lv)) == QtyAt(lv, BestPrice(lv)) > 0;
      TotalPositive(orders, cfg, sym, bid, BestPrice(lv));
    }
  }

  /** The touch of a consistent ladder is the best of the live orders. */
  lemma {:induction false} TouchOfOrders(lv: seq<Level>, orders: Orders, cfg: Config, sym: nat, bid: bool)
    requires IsLadder(lv, bid) && Agrees(lv, orders, cfg, sym, bid)
    ensures IsBest(BestPrice(lv), BestQty(lv), orders, cfg, sym, bid)
  {
    TouchIsBest(lv, bid);
    NoneLiveIsEmpty(lv, orders, cfg, sym, bid);
    if lv != [] {
      assert Total(orders, cfg, sym, bid, BestPrice(lv)) == QtyAt(lv, BestPrice(lv));
      forall k, p: nat | k in orders && Share(orders[k], cfg, sym, bid, p) > 0
        ensures if bid then p <= BestPrice(lv) else BestPrice(lv) <= p
      {
        TotalPositive(orders, cfg, sym, bid, p);
        assert QtyAt(lv, p) == Total(orders, cfg, sym, bid, p);
      }
    }
  }

  /** Ladders, published tops and the market board as one value. */
  datatype Market = Market(view: View, tops: seq<Top>, board: seq<Quote>)

  /** Tops and board follow the ladders for every quoted symbol; `x` may have an unpublished ladder change. */
  ghost predicate Follows(m: Market, quoted: seq<bool>, x: int) {
    && |m.view| == |m.tops|
    && forall s | 0 <= s < |m.view| && s < |quoted| && s < |m.board| && quoted[s] ::
         m.board[s] == Shown(m.tops[s]) && (s != x ==> m.tops[s] == TopOf(m.view[s]))
  }

  /** Publishing a symbol: its top is its touch, the board is written only on a change. */
  function Publish(m: Market, s: nat): Market
    requires s < |m.view| == |m.tops| && s < |m.board|
  {
    var t := TopOf(m.view[s]);
    if t == m.tops[s] then m else Market(m.view, m.tops[s := t], m.board[s := Shown(t)])
  }

  lemma {:induction false} PublishFollows(m: Market, quoted: seq<bool>, s: nat)
    requires s < |m.view| && s < |m.board| && Follows(m, quoted, s)
    ensures Follows(Publish(m, s), quoted, -1)
  {
  }

  lemma {:induction false} AdjustFollows(m: Market, m': Market, quoted: seq<bool>, x: int, s: nat, bid: bool, t: nat, q: nat)
    requires Follows(m, quoted, x) && (x == -1 || x == s) && s < |m.view|
    requires Adjusted(m'.view, m.view, s, bid, t, q) && m'.tops == m.tops && m'.board == m.board
    ensures Follows(m', quoted, s)
  {
  }

  /** The published top of a symbol is the best of its live orders, on both sides. */
  lemma {:induction false} PublishedIsBest(m: Market, orders: Orders, cfg: Config, s: nat)
    requires Follows(m, cfg.quoted, -1) && Consistent(m.view, orders, cfg)
    requires s < |m.view| && s < |cfg.quoted| && s < |m.board| && cfg.quoted[s]
    requires IsLadder(m.view[s].bids, true) && IsLadder(m.view[s].asks, false)
    ensures IsBest(m.tops[s].bid, m.tops[s].bidQty, orders, cfg, s, true)
    ensures IsBest(m.tops[s].ask, m.tops[s].askQty, orders, cfg, s, false)
    ensures m.board[s] == Shown(m.tops[s])
  {
    assert Agrees(m.view[s].Of(true), orders, cfg, s, true);
    assert Agrees(m.view[s].Of(false), orders, cfg, s, false);
    TouchOfOrders(m.view[s].bids, orders, cfg, s, true);
    TouchOfOrders(m.view[s].asks, orders, cfg, s, false);
  }

  // ---- what a reader of the board sees ----

  /** A live order of a symbol, a buy or not. */
  ghost predicate OnSide(o: Order, cfg: Config, sym: nat, buy: bool) {
    o.locate < |cfg.symOf| && cfg.symOf[o.locate] == sym && (o.side == 'B' <==> buy) && o.shares > 0
  }

  /** The highest price somebody bids, or the lowest somebody asks. */
  ghost predicate IsBestPrice(orders: Orders, cfg: Config, sym: nat, buy: bool, price: nat) {
    && (exists k :: k in orders && OnSide(orders[k], cfg, sym, buy) && orders[k].price == price)
    && forall k :: k in orders && OnSide(orders[k], cfg, sym, buy)
         ==> if buy then orders[k].price <= price else price <= orders[k].price
  }

  /** A price in 32 signed bits, so below 2^31 the price itself, and a size that stops at 32 bits. */
  ghost predicate Displays(shown: int, size: nat, price: nat, qty: nat) {
    && -0x8000_0000 <= shown < 0x8000_0000 && (price - shown) % 0x1_0000_0000 == 0
    && (price < 0x8000_0000 ==> shown == price)
    && size == if qty > 0xFFFF_FFFF then 0xFFFF_FFFF else qty
  }

  /** One side of a quote is the best price of the live orders with all the shares there, or empty. */
  ghost predicate Quotes(shown: int, size: nat, orders: Orders, cfg: Config, sym: nat, buy: bool) {
    if forall k :: k in orders ==> !OnSide(orders[k], cfg, sym, buy) then shown == 0 && size == 0
    else exists p :: IsBestPrice(orders, cfg, sym, buy, p) && Displays(shown, size, p, Total(orders, cfg, sym, buy, p))
  }

  lemma {:induction false} ShownDisplays(t: Top)
    ensures Displays(Shown(t).bid, Shown(t).bidSz, t.bid, t.bidQty)
    ensures Displays(Shown(t).ask, Shown(t).askSz, t.ask, t.askQty)
  {
    Int32Wraps(t.bid);
    Int32Wraps(t.ask);
    hide Int32;
  }

  /** The 32-bit signed value of a price. */
  lemma {:induction false} Int32Wraps(x: nat)
    ensures -0x8000_0000 <= Int32(x) < 0x8000_0000 && (x - Int32(x)) % 0x1_0000_0000 == 0
    ensures x < 0x8000_0000 ==> Int32(x) == x
  {
  }

  lemma {:induction false} BestQuotes(price: nat, qty: nat, shown: int, size: nat,
                                      orders: Orders, cfg: Config, sym: nat, bid: bool)
    requires IsBest(price, qty, orders, cfg, sym, bid) && Displays(shown, size, price, qty)
    ensures Quotes(shown, size, orders, cfg, sym, bid)
  {
    forall k | k in orders
      ensures OnSide(orders[k], cfg, sym, bid) <==> Share(orders[k], cfg, sym, bid, orders[k].price) > 0
    {
    }
    if !NoneLive(orders, cfg, sym, bid) {
      TotalPositive(orders, cfg, sym, bid, price);
      var k :| k in orders && Share(orders[k], cfg, sym, bid, price) > 0;
      assert OnSide(orders[k], cfg, sym, bid);
      assert IsBestPrice(orders, cfg, sym, bid, price);
    }
  }

  /** A reader of the board sees the best of the live orders: buys as the bid, the others as the ask. */
  lemma {:induction false} BoardIsBest(m: Market, orders: Orders, cfg: Config, s: nat)
    requires Follows(m, cfg.quoted, -1) && Consistent(m.view, orders, cfg)
    requires s < |m.view| && s < |cfg.quoted| && s < |m.board| && cfg.quoted[s]
    requires IsLadder(m.view[s].bids, true) && IsLadder(m.view[s].asks, false)
    ensures Quotes(m.board[s].bid, m.board[s].bidSz, orders, cfg, s, true)
    ensures Quotes(m.board[s].ask, m.board[s].askSz, orders, cfg, s, false)
  {
    hide Quotes, IsBest, Displays, Shown;
    PublishedIsBest(m, orders, cfg, s);
    ShownDisplays(m.tops[s]);
    BestQuotes(m.tops[s].bid, m.tops[s].bidQty, m.board[s].bid, m.board[s].bidSz, orders, cfg, s, true);
    BestQuotes(m.tops[s].ask, m.tops[s].askQty, m.board[s].ask, m.board[s].askSz, orders, cfg, s, false);
  }

  lemma {:induction false} TouchDisplays(m: Market, quoted: seq<bool>, s: nat)
    requires Follows(m, quoted, -1) && s < |m.view| && s < |quoted| && s < |m.board|
    ensures quoted[s] ==>
              && Displays(m.board[s].bid, m.board[s].bidSz, BestPrice(m.view[s].bids), BestQty(m.view[s].bids))
              && Displays(m.board[s].ask, m.board[s].askSz, BestPrice(m.view[s].asks), BestQty(m.view[s].asks))
  {
    ShownDisplays(m.tops[s]);
    hide Displays, Shown;
  }

  // ---- the handler ----

  /** What the board shows: 32-bit signed prices, sizes clamped to 32 bits. */
  datatype Quote = Quote(bid: int, bidSz: nat, ask: int, askSz: nat)

  function Int32(x: nat): int { if x % 0x1_0000_0000 < 0x8000_0000 then x % 0x1_0000_0000 else x % 0x1_0000_0000 - 0x1_0000_0000 }

  function Shown(t: Top): Quote {
    Quote(Int32(t.bid), Min(t.bidQty, 0xFFFF_FFFF), Int32(t.ask), Min(t.askQty, 0xFFFF_FFFF))
  }

  /** A trade reported to the board. */
  datatype Print = Print(sym: nat, price: int, shares: nat)

  datatype Msg =
    | Add(locate: Locate, ref: nat, side: char, shares: nat, price: nat)
    | Executed(locate: Locate, ref: nat, shares: nat)
    | ExecutedPrice(locate: Locate, ref: nat, shares: nat, printable: bool, price: nat)
    | Cancel(ref: nat, shares: nat)
    | Delete(ref: nat)
    | Replace(oldRef: nat, newRef: nat, shares: nat, price: nat)
    | Trade(locate: Locate, shares: nat, price: nat)
    | Directory(locate: Locate, sym: nat)      // `sym`: the symbol the name was found under, or INVALID
    | TradingAction(locate: Locate, sym: nat)

  /** A name is looked up in the symbol table. */
  predicate InTable(cfg: Config, m: Msg) {
    m.Directory? || m.TradingAction? ==> m.sym == INVALID || m.sym < |cfg.quoted|
  }

  /** Giving a locate code a meaning. */
  function Mapped(cfg: Config, l: Locate, sym: nat): (c: Config)
    requires cfg.Ok() && (sym == INVALID || sym < |cfg.quoted|)
    ensures c.Ok() && c.quoted == cfg.quoted
  {
    cfg.(symOf := cfg.symOf[l := sym])
  }

  /** What the locate codes mean after a message. */
  function NextConfig(cfg: Config, m: Msg): (c: Config)
    requires cfg.Ok() && InTable(cfg, m)
    ensures c.Ok() && c.quoted == cfg.quoted
  {
    if m.Directory? || (m.TradingAction? && cfg.symOf[m.locate] == INVALID) then Mapped(cfg, m.locate, m.sym) else cfg
  }

  /** The live orders after a message. */
  function NextOrders(orders: Orders, cfg: Config, m: Msg): Orders
    requires cfg.Ok()
  {
    match m
    case Add(l, ref, side, shares, price) =>
      if cfg.symOf[l] == INVALID then orders else orders[ref := Order(price, shares, l, side)]
    case Executed(_, ref, shares) => if ref in orders then Reduced(orders, ref, shares) else orders
    case ExecutedPrice(_, ref, shares, _, _) => if ref in orders then Reduced(orders, ref, shares) else orders
    case Cancel(ref, shares) => if ref in orders then Reduced(orders, ref, shares) else orders
    case Delete(ref) => orders - {ref}
    case Replace(old_, new_, shares, price) =>
      if old_ in orders
      then (orders - {old_})[new_ := Order(price, shares, orders[old_].locate, orders[old_].side)]
      else orders
    case _ => orders
  }

  /** The trades a message reports: an execution at the resting order's own price unless it carries one. */
  function PrintsOf(orders: Orders, cfg: Config, m: Msg): seq<Print>
    requires cfg.Ok()
  {
    match m
    case Executed(l, ref, shares) =>
      if ref in orders then [Print(cfg.symOf[l], Int32(orders[ref].price), shares)] else []
    case ExecutedPrice(l, _, shares, printable, price) =>
      if printable then [Print(cfg.symOf[l], Int32(price), shares)] else []
    case Trade(l, shares, price) => [Print(cfg.symOf[l], Int32(price), shares)]
    case _ => []
  }

  /** None of the live orders of a locate code is shown, or will be once it means `sym`. */
  predicate Remappable(orders: Orders, cfg: Config, l: Locate, sym: nat)
    requires cfg.Ok() && (sym == INVALID || sym < |cfg.quoted|)
  {
    sym == cfg.symOf[l]
    || forall k :: k in orders && orders[k].locate == l ==> !Counted(orders[k], cfg) && !Counted(orders[k], Mapped(cfg, l, sym))
  }

  /**
   The reference a message stores into does not carry an order some ladder shows; a locate code is not given a new
   meaning while it has live orders that some ladder shows or should then show.
   */
  predicate Fresh(orders: Orders, cfg: Config, m: Msg)
    requires cfg.Ok() && InTable(cfg, m)
  {
    match m
    case Add(l, ref, _, _, _) => cfg.symOf[l] == INVALID || ref !in orders || !Counted(orders[ref], cfg)
    case Replace(old_, new_, _, _) =>
      old_ !in orders || old_ == new_ || new_ !in orders || !Counted(orders[new_], cfg)
    case Directory(l, sym) => Remappable(orders, cfg, l, sym)
    case TradingAction(l, sym) => cfg.symOf[l] != INVALID || Remappable(orders, cfg, l, sym)
    case _ => true
  }

  predicate AllInTable(cfg: Config, ms: seq<Msg>) {
    forall i :: 0 <= i < |ms| ==> InTable(cfg, ms[i])
  }

  predicate AllFresh(orders: Orders, cfg: Config, ms: seq<Msg>)
    requires cfg.Ok() && AllInTable(cfg, ms)
    decreases |ms|
  {
    ms == []
    || (Fresh(orders, cfg, ms[0]) && AllFresh(NextOrders(orders, cfg, ms[0]), NextConfig(cfg, ms[0]), ms[1..]))
  }

  function RunOrders(orders: Orders, cfg: Config, ms: seq<Msg>): Orders
    requires cfg.Ok() && AllInTable(cfg, ms)
    decreases |ms|
  {
    if ms == [] then orders else RunOrders(NextOrders(orders, cfg, ms[0]), NextConfig(cfg, ms[0]), ms[1..])
  }

  function RunConfig(cfg: Config, ms: seq<Msg>): Config
    requires cfg.Ok() && AllInTable(cfg, ms)
    decreases |ms|
  {
    if ms == [] then cfg else RunConfig(NextConfig(cfg, ms[0]), ms[1..])
  }

  /** The trades a run reports. */
  function RunPrints(orders: Orders, cfg: Config, ms: seq<Msg>): seq<Print>
    requires cfg.Ok() && AllInTable(cfg, ms)
    decreases |ms|
  {
    if ms == [] then []
    else PrintsOf(orders, cfg, ms[0]) + RunPrints(NextOrders(orders, cfg, ms[0]), NextConfig(cfg, ms[0]), ms[1..])
  }

  // ---- the life of an order ----

  /** No message stores an order under `k`. */
  ghost predicate NotStored(k: nat, ms: seq<Msg>) {
    forall i :: 0 <= i < |ms| ==> !(ms[i].Add? && ms[i].ref == k) && !(ms[i].Replace? && ms[i].newRef == k)
  }

  /** The message takes shares off order `k`. */
  predicate Takes(m: Msg, k: nat) {
    (m.Executed? || m.ExecutedPrice? || m.Cancel?) && m.ref == k
  }

  /** The message removes order `k` whatever is left of it. */
  predicate Ends(m: Msg, k: nat) {
    (m.Delete? && m.ref == k) || (m.Replace? && m.oldRef == k)
  }

  /** The shares all messages together ask to take off order `k`. */
  function Taken(k: nat, ms: seq<Msg>): nat {
    if ms == [] then 0 else (if Takes(ms[0], k) then ms[0].shares else 0) + Taken(k, ms[1..])
  }

  /** An order is still there: nothing ended it, and what was asked of it was less than it had. */
  ghost predicate Survives(o: Order, k: nat, ms: seq<Msg>) {
    && (forall i :: 0 <= i < |ms| ==> !Ends(ms[i], k))
    && ((exists i :: 0 <= i < |ms| && Takes(ms[i], k)) ==> Taken(k, ms) < o.shares)
  }

  /** What one message does to the order under `k`, unless it stores one there. */
  lemma {:induction false} OrderStep(orders: Orders, cfg: Config, m: Msg, k: nat)
    requires cfg.Ok() && InTable(cfg, m) && NotStored(k, [m])
    ensures k in NextOrders(orders, cfg, m) <==>
              k in orders && !Ends(m, k) && (Takes(m, k) ==> m.shares < orders[k].shares)
    ensures k in NextOrders(orders, cfg, m) ==>
              NextOrders(orders, cfg, m)[k] == orders[k].(shares := orders[k].shares - if Takes(m, k) then m.shares else 0)
  {
    assert [m][0] == m;
  }

  /**
   Over any run an order keeps price, side and locate code and loses exactly the shares asked of it;
   it is gone exactly when a message ended it or as many were asked as it had.
   */
  lemma {:induction false} OrderLife(orders: Orders, cfg: Config, ms: seq<Msg>, k: nat)
    requires cfg.Ok() && AllInTable(cfg, ms) && NotStored(k, ms)
    ensures k in RunOrders(orders, cfg, ms) <==> k in orders && Survives(orders[k], k, ms)
    ensures k in RunOrders(orders, cfg, ms) ==>
              var o, o' := orders[k], RunOrders(orders, cfg, ms)[k];
              o' == o.(shares := o'.shares) && o'.shares + Taken(k, ms) == o.shares
    decreases |ms|
  {
    hide NextOrders, NextConfig, Takes, Ends;
    if ms == [] {
    } else {
      RunUnfolds(orders, cfg, ms);
      assert NotStored(k, [ms[0]]) && NotStored(k, ms[1..]);
      OrderStep(orders, cfg, ms[0], k);
      OrderLife(NextOrders(orders, cfg, ms[0]), NextConfig(cfg, ms[0]), ms[1..], k);
      TakenParts(k, ms);
      if !exists i :: 0 <= i < |ms[1..]| && Takes(ms[1..][i], k) {
        NoneTaken(k, ms[1..]);
      }
    }
  }

  lemma {:induction false} NoneTaken(k: nat, ms: seq<Msg>)
    requires forall i :: 0 <= i < |ms| ==> !Takes(ms[i], k)
    ensures Taken(k, ms) == 0
    decreases |ms|
  {
    hide Takes;
    if ms != [] {
      NoneTaken(k, ms[1..]);
    }
  }

  lemma {:induction false} TakenParts(k: nat, ms: seq<Msg>)
    requires ms != []
    ensures Taken(k, ms) == (if Takes(ms[0], k) then ms[0].shares else 0) + Taken(k, ms[1..])
    ensures (exists i :: 0 <= i < |ms| && Takes(ms[i], k)) <==>
              Takes(ms[0], k) || exists i :: 0 <= i < |ms[1..]| && Takes(ms[1..][i], k)
    ensures (forall i :: 0 <= i < |ms| ==> !Ends(ms[i], k)) <==>
              !Ends(ms[0], k) && forall i :: 0 <= i < |ms[1..]| ==> !Ends(ms[1..][i], k)
  {
    hide Takes, Ends;
    var rest := ms[1..];
    assert forall i :: 0 <= i < |rest| ==> rest[i] == ms[i + 1];
    if i :| 0 <= i < |ms| && Takes(ms[i], k) {
      assert i > 0 ==> Takes(rest[i - 1], k);
    }
    if i :| 0 <= i < |ms| && Ends(ms[i], k) {
      assert i > 0 ==> Ends(rest[i - 1], k);
    }
  }

  /** An order begins as its add says; a replacement begins on the side and locate code of the order it replaces. */
  lemma {:induction false} OrderBegins(orders: Orders, cfg: Config, m: Msg)
    requires cfg.Ok() && InTable(cfg, m)
    ensures m.Add? ==>
              NextOrders(orders, cfg, m) ==
              if cfg.symOf[m.locate] == INVALID then orders else orders[m.ref := Order(m.price, m.shares, m.locate, m.side)]
    ensures m.Replace? && m.oldRef !in orders ==> NextOrders(orders, cfg, m) == orders
    ensures m.Replace? && m.oldRef in orders ==>
              var after := NextOrders(orders, cfg, m);
              && m.newRef in after && after[m.newRef] == orders[m.oldRef].(price := m.price, shares := m.shares)
              && forall k :: k != m.newRef ==> (k in after <==> k in orders && k != m.oldRef) && (k in after ==> after[k] == orders[k])
  {
  }

  /** An execution is reported at the price its order was resting at, however long ago that was stored. */
  lemma {:induction false} PrintsAtRestingPrice(orders: Orders, cfg: Config, ms: seq<Msg>, m: Msg)
    requires cfg.Ok() && AllInTable(cfg, ms) && m.Executed? && NotStored(m.ref, ms)
    ensures RunConfig(cfg, ms).Ok()
    ensures var told := PrintsOf(RunOrders(orders, cfg, ms), RunConfig(cfg, ms), m);
            if m.ref in orders && Survives(orders[m.ref], m.ref, ms) then
              && |told| == 1 && told[0].sym == RunConfig(cfg, ms).symOf[m.locate] && told[0].shares == m.shares
              && Displays(told[0].price, 0, orders[m.ref].price, 0)
            else told == []
  {
    OrderLife(orders, cfg, ms, m.ref);
    ConfigStaysOk(cfg, ms);
    if m.ref in orders {
      Int32Wraps(orders[m.ref].price);
    }
    hide RunOrders, RunConfig, Int32, Survives;
  }

  /** A trade that carries its price is reported at that price, an execution only if it is printable. */
  lemma {:induction false} PrintsAtCarriedPrice(orders: Orders, cfg: Config, m: Msg)
    requires cfg.Ok() && !m.Executed?
    ensures var told := PrintsOf(orders, cfg, m);
            if m.Trade? || (m.ExecutedPrice? && m.printable) then
              && |told| == 1 && told[0].sym == cfg.symOf[m.locate] && told[0].shares == m.shares
              && Displays(told[0].price, 0, m.price, 0)
            else told == []
  {
    if m.Trade? || m.ExecutedPrice? {
      Int32Wraps(m.price);
    }
    hide Int32;
  }

  /** A directory message gives its code a meaning, a trading action only a code without one; no other code changes. */
  lemma {:induction false} CodeMeans(cfg: Config, m: Msg, l: Locate)
    requires cfg.Ok() && InTable(cfg, m)
    ensures NextConfig(cfg, m).symOf[l] ==
            match m
            case Directory(k, sym) => (if k == l then sym else cfg.symOf[l])
            case TradingAction(k, sym) => (if k == l && cfg.symOf[l] == INVALID then sym else cfg.symOf[l])
            case _ => cfg.symOf[l]
  {
  }

  /** Until a directory message names it, a locate code keeps its meaning once it has one. */
  lemma {:induction false} MeaningStays(cfg: Config, ms: seq<Msg>, l: Locate)
    requires cfg.Ok() && AllInTable(cfg, ms) && cfg.symOf[l] != INVALID
    requires forall i :: 0 <= i < |ms| ==> !(ms[i].Directory? && ms[i].locate == l)
    ensures RunConfig(cfg, ms).Ok() && RunConfig(cfg, ms).symOf[l] == cfg.symOf[l]
    decreases |ms|
  {
    ConfigStaysOk(cfg, ms);
    if ms != [] {
      CodeMeans(cfg, ms[0], l);
      hide NextConfig;
      RunUnfolds(map[], cfg, ms);
      MeaningStays(NextConfig(cfg, ms[0]), ms[1..], l);
    }
  }

  lemma {:induction false} ConfigStaysOk(cfg: Config, ms: seq<Msg>)
    requires cfg.Ok() && AllInTable(cfg, ms)
    ensures RunConfig(cfg, ms).Ok()
    decreases |ms|
  {
    hide NextConfig;
    if ms != [] {
      RunUnfolds(map[], cfg, ms);
      ConfigStaysOk(NextConfig(cfg, ms[0]), ms[1..]);
    }
  }

  class LevelBook {
    const bids: SideLadder
    const asks: SideLadder
    var pubBid: nat
    var pubAsk: nat
    var pubBidQ: nat
    var pubAskQ: nat
    ghost const sym: nat

    constructor (ghost sym: nat)
      ensures this.sym == bids.sym == asks.sym == sym && bids.bid && !asks.bid && fresh(bids) && fresh(asks)
      ensures bids.Valid() && asks.Valid() && bids.lv == asks.lv == [] && Pub() == Top(0, 0, 0, 0)
    {
      bids := new SideLadder(true, sym);
      asks := new SideLadder(false, sym);
      pubBid, pubAsk, pubBidQ, pubAskQ := 0, 0, 0, 0;
      this.sym := sym;
    }

    function Pub(): Top
      reads this
    {
      Top(pubBid, pubBidQ, pubAsk, pubAskQ)
    }

    function Side(bid: bool): SideLadder {
      if bid then bids else asks
    }
  }

  ghost predicate EmptyBook(b: LevelBook, s: nat)
    reads b, b.bids, b.asks
  {
    && b.sym == b.bids.sym == b.asks.sym == s && b.bids.bid && !b.asks.bid
    && b.bids.lv == b.asks.lv == [] && b.Pub() == Top(0, 0, 0, 0)
  }

  method NewBooks(n: nat) returns (bs: seq<LevelBook>, ghost parts: set<object>)
    ensures |bs| == n && fresh(parts)
    ensures forall k | 0 <= k < n :: EmptyBook(bs[k], k) && bs[k] in parts && bs[k].bids in parts && bs[k].asks in parts
  {
    bs, parts := [], {};
    for s := 0 to n
      invariant |bs| == s && fresh(parts)
      invariant forall k | 0 <= k < s :: EmptyBook(bs[k], k) && bs[k] in parts && bs[k].bids in parts && bs[k].asks in parts
    {
      var b := new LevelBook(s);
      bs, parts := bs + [b], parts + {b, b.bids, b.asks};
    }
  }

  lemma {:induction false} NothingYet(m: Market, cfg: Config)
    requires |m.tops| == |m.view|
    requires forall s | 0 <= s < |m.view| :: m.view[s] == Sides([], []) && m.tops[s] == Top(0, 0, 0, 0)
    requires forall s | 0 <= s < |m.board| :: m.board[s] == Quote(0, 0, 0, 0)
    ensures Consistent(m.view, map[], cfg) && Follows(m, cfg.quoted, -1)
  {
  }

  class ItchBook {
    var symOf: seq<nat>              // what each locate code means
    var orders: Orders
    const books: seq<LevelBook>      // one per symbol when quotes are tracked
    const nSyms: nat
    const trackQuotes: bool
    const filter: seq<bool>          // empty: every symbol
    var board: seq<Quote>            // top of book per symbol on the market board
    var prints: seq<Print>           // trades reported to the board
    var quoteUpdates: nat
    ghost var market: Market         // ladders, published tops and board as a value

    predicate Quoted(sym: nat)
      requires filter == [] || sym < |filter|
    {
      trackQuotes && (filter == [] || filter[sym])
    }

    function QuotedSyms(): seq<bool>
      requires filter == [] || |filter| == nSyms
    {
      seq(nSyms, s requires 0 <= s < nSyms => Quoted(s))
    }

    function Cfg(): Config
      requires filter == [] || |filter| == nSyms
      reads this`symOf
    {
      Config(symOf, QuotedSyms())
    }

    ghost const parts: set<object>   // the books and their ladders

    ghost predicate Shape() {
      && this !in parts && (filter == [] || |filter| == nSyms) && |books| == (if trackQuotes then nSyms else 0)
      && forall s | 0 <= s < |books| ::
           && books[s].sym == books[s].bids.sym == books[s].asks.sym == s
           && books[s].bids.bid && !books[s].asks.bid
           && books[s] in parts && books[s].bids in parts && books[s].asks in parts
    }

    ghost predicate Valid()
      reads this`symOf, this`board, this`market, parts
    {
      && Shape() && Cfg().Ok() && |board| == nSyms
      && (forall s | 0 <= s < |books| :: books[s].bids.Valid() && books[s].asks.Valid())
      && market == State()
    }

    /** Ladders, tops and board as a value. */
    ghost function State(): Market
      requires Shape()
      reads this`board, parts
    {
      Market(seq(|books|, s requires 0 <= s < |books| reads parts => Sides(books[s].bids.lv, books[s].asks.lv)),
             seq(|books|, s requires 0 <= s < |books| reads parts =>
               Top(books[s].pubBid, books[s].pubBidQ, books[s].pubAsk, books[s].pubAskQ)),
             board)
    }

    /** The shape of the book, and the published tops and the board follow the ladders. */
    ghost predicate Sound()
      reads this`symOf, this`board, this`market, parts
    {
      Valid() && Follows(market, QuotedSyms(), -1)
    }

    /** The ladders agree with the live orders. */
    ghost predicate InStep()
      requires Shape()
      reads this`symOf, this`market, this`orders
    {
      Consistent(market.view, orders, Cfg())
    }

    constructor (nSyms: nat, trackQuotes: bool, filter: seq<bool>)
      requires nSyms <= INVALID && (filter == [] || |filter| == nSyms)
      ensures Sound() && InStep() && orders == map[] && prints == [] && fresh(parts)
      ensures this.nSyms == nSyms && this.trackQuotes == trackQuotes && this.filter == filter
    {
      symOf := seq(65536, i => INVALID);
      orders, prints, quoteUpdates := map[], [], 0;
      this.nSyms, this.trackQuotes, this.filter := nSyms, trackQuotes, filter;
      board := seq(nSyms, i => Quote(0, 0, 0, 0));
      var bs;
      ghost var ps;
      bs, ps := NewBooks(if trackQuotes then nSyms else 0);
      books := bs;
      parts := ps;
      new;
      market := State();
      NothingYet(market, Cfg());
    }

    method AddShares(sym: nat, bid: bool, price: nat, qty: nat, ghost x: int)
      requires Valid() && sym < |books| && Follows(market, QuotedSyms(), x) && (x == -1 || x == sym)
      modifies this`market, books[sym].Side(bid)
      ensures Valid() && Follows(market, QuotedSyms(), sym)
      ensures Adjusted(market.view, old(market).view, sym, bid, price, QtyAt(old(market).view[sym].Of(bid), price) + qty)
    {
      ghost var m := market;
      books[sym].Side(bid).Add(price, qty);
      market := State();
      AdjustFollows(m, market, QuotedSyms(), x, sym, bid, price, QtyAt(m.view[sym].Of(bid), price) + qty);
    }

    method RemoveShares(sym: nat, bid: bool, price: nat, qty: nat)
      requires Valid() && sym < |books| && Follows(market, QuotedSyms(), -1)
      modifies this`market, books[sym].Side(bid)
      ensures Valid() && Follows(market, QuotedSyms(), sym)
      ensures Adjusted(market.view, old(market).view, sym, bid, price,
                       Minus(QtyAt(old(market).view[sym].Of(bid), price), qty))
    {
      ghost var m := market;
      books[sym].Side(bid).Remove(price, qty);
      market := State();
      AdjustFollows(m, market, QuotedSyms(), -1, sym, bid, price, Minus(QtyAt(m.view[sym].Of(bid), price), qty));
    }

    /** A top that differs from the one last published goes to the board; an equal one does not. */
    method PublishTop(sym: nat)
      requires Valid() && sym < |books| && Follows(market, QuotedSyms(), sym)
      modifies this`market, this`board, this`quoteUpdates, books[sym]
      ensures Valid() && market == Publish(old(market), sym) && Follows(market, QuotedSyms(), -1)
      ensures quoteUpdates == old(quoteUpdates) + if market == old(market) then 0 else 1
      ensures Quoted(sym) && sym < |board| ==>
                && Displays(board[sym].bid, board[sym].bidSz, BestPrice(books[sym].bids.lv), BestQty(books[sym].bids.lv))
                && Displays(board[sym].ask, board[sym].askSz, BestPrice(books[sym].asks.lv), BestQty(books[sym].asks.lv))
    {
      hide Follows, Displays;
      PublishFollows(market, QuotedSyms(), sym);
      TouchDisplays(Publish(market, sym), QuotedSyms(), sym);
      var b := books[sym];
      var bp, ap := BestPrice(b.bids.lv), BestPrice(b.asks.lv);
      var bq, aq := BestQty(b.bids.lv), BestQty(b.asks.lv);
      if bp == b.pubBid && ap == b.pubAsk && bq == b.pubBidQ && aq == b.pubAskQ {
        return;
      }
      StoreTop(sym, Top(bp, bq, ap, aq));
    }

    /** A top is noted as published and goes to the board. */
    method StoreTop(sym: nat, t: Top)
      requires Valid() && sym < |books|
      modifies this`market, this`board, this`quoteUpdates, books[sym]
      ensures Valid() && quoteUpdates == old(quoteUpdates) + 1
      ensures market == Market(old(market).view, old(market).tops[sym := t], old(market).board[sym := Shown(t)])
    {
      hide Shown;
      var b := books[sym];
      b.pubBid, b.pubAsk, b.pubBidQ, b.pubAskQ := t.bid, t.ask, t.bidQty, t.askQty;
      quoteUpdates := quoteUpdates + 1;
      board := board[sym := Shown(t)];
      market := State();
    }

    /** Adds shares to the ladder of a locate's symbol, when it has one, and publishes. */
    method QuoteAdd(locate: Locate, bid: bool, price: nat, qty: nat, ghost x: int)
      requires Valid() && Follows(market, QuotedSyms(), x)
      requires x == -1 || (Cfg().Tracks(locate) && x == symOf[locate])
      modifies this`market, this`board, this`quoteUpdates, parts
      ensures Sound() && LadderChange(market.view, old(market).view, Cfg(), locate, bid, price, qty, true)
    {
      hide Follows, Adjusted, Displays, BestPrice, BestQty;
      var sym := symOf[locate];
      if sym != INVALID && Quoted(sym) {
        AddShares(sym, bid, price, qty, x);
        PublishTop(sym);
      }
    }

    /** Takes shares off the ladder of a locate's symbol and publishes. */
    method QuoteRemove(locate: Locate, bid: bool, price: nat, qty: nat)
      requires Sound()
      modifies this`market, this`board, this`quoteUpdates, parts
      ensures Sound() && LadderChange(market.view, old(market).view, Cfg(), locate, bid, price, qty, false)
    {
      hide Follows, Adjusted, Displays, BestPrice, BestQty;
      var sym := symOf[locate];
      if sym != INVALID && Quoted(sym) {
        RemoveShares(sym, bid, price, qty);
        PublishTop(sym);
      }
    }

    lemma CfgOk()
      requires Valid()
      ensures Shape() && Cfg().Ok()
    {
    }

    method OnAdd(locate: Locate, ref: nat, side: char, shares: nat, price: nat)
      requires Sound()
      modifies this`orders, this`market, this`board, this`quoteUpdates, parts
      ensures Sound()
      ensures orders == NextOrders(old(orders), Cfg(), Add(locate, ref, side, shares, price))
      ensures old(InStep()) ==> (InStep() <==> Fresh(old(orders), Cfg(), Add(locate, ref, side, shares, price)))
    {
      CfgOk();
      hide Valid, Follows, Consistent, LadderChange;
      if symOf[locate] == INVALID {
        return;
      }
      ghost var view, os := market.view, orders;
      var o := Order(price, shares, locate, side);
      orders := orders[ref := o];
      QuoteAdd(locate, side == 'B', price, shares, -1);
      AddConsistent(view, market.view, os, ref, o, Cfg());
    }

    /** Takes shares off an order, its ladder and, when it empties, the book. */
    method Reduce(ref: nat, shares: nat)
      requires Sound() && ref in orders
      modifies this`orders, this`market, this`board, this`quoteUpdates, parts
      ensures Sound() && orders == Reduced(old(orders), ref, shares)
      ensures old(InStep()) ==> InStep()
    {
      CfgOk();
      hide Valid, Follows, Consistent, LadderChange;
      ghost var view := market.view;
      var o := orders[ref];
      var take := if shares < o.shares then shares else o.shares;
      QuoteRemove(o.locate, o.side == 'B', o.price, take);
      ReduceConsistent(view, market.view, orders, ref, shares, Cfg());
      if shares >= o.shares {
        orders := orders - {ref};
      } else {
        orders := orders[ref := o.(shares := o.shares - shares)];
      }
    }

    method OnExecuted(locate: Locate, ref: nat, shares: nat)
      requires Sound()
      modifies this`orders, this`prints, this`market, this`board, this`quoteUpdates, parts
      ensures Sound() && orders == NextOrders(old(orders), Cfg(), Executed(locate, ref, shares))
      ensures prints == old(prints) + PrintsOf(old(orders), Cfg(), Executed(locate, ref, shares))
      ensures old(InStep()) ==> InStep()
    {
      CfgOk();
      hide Valid, Follows, Consistent;
      if ref in orders {
        prints := prints + [Print(symOf[locate], Int32(orders[ref].price), shares)];
        Reduce(ref, shares);
      }
    }

    method OnExecutedPrice(locate: Locate, ref: nat, shares: nat, printable: bool, price: nat)
      requires Sound()
      modifies this`orders, this`prints, this`market, this`board, this`quoteUpdates, parts
      ensures Sound() && orders == NextOrders(old(orders), Cfg(), ExecutedPrice(locate, ref, shares, printable, price))
      ensures prints == old(prints) + PrintsOf(old(orders), Cfg(), ExecutedPrice(locate, ref, shares, printable, price))
      ensures old(InStep()) ==> InStep()
    {
      CfgOk();
      hide Valid, Follows, Consistent;
      if printable {
        prints := prints + [Print(symOf[locate], Int32(price), shares)];
      }
      if ref in orders {
        Reduce(ref, shares);
      }
    }

    method OnCancel(ref: nat, shares: nat)
      requires Sound()
      modifies this`orders, this`market, this`board, this`quoteUpdates, parts
      ensures Sound() && orders == NextOrders(old(orders), Cfg(), Cancel(ref, shares))
      ensures old(InStep()) ==> InStep()
    {
      CfgOk();
      hide Valid, Follows, Consistent;
      if ref in orders {
        Reduce(ref, shares);
      }
    }

    method OnDelete(ref: nat)
      requires Sound()
      modifies this`orders, this`market, this`board, this`quoteUpdates, parts
      ensures Sound() && orders == NextOrders(old(orders), Cfg(), Delete(ref))
      ensures old(InStep()) ==> InStep()
    {
      CfgOk();
      hide Valid, Follows, Consistent;
      if ref in orders {
        Reduce(ref, orders[ref].shares);
      }
    }

    /** Takes shares off a ladder without publishing; `x` is the symbol now ahead of its published top. */
    method DropQuietly(locate: Locate, bid: bool, price: nat, qty: nat) returns (ghost x: int)
      requires Sound()
      modifies this`market, this`board, this`quoteUpdates, parts
      ensures Valid() && Follows(market, QuotedSyms(), x)
      ensures x == -1 || (Cfg().Tracks(locate) && x == symOf[locate])
      ensures LadderChange(market.view, old(market).view, Cfg(), locate, bid, price, qty, false)
    {
      hide Follows, Adjusted, Displays, BestPrice, BestQty;
      var sym := symOf[locate];
      x := -1;
      if sym != INVALID && Quoted(sym) {
        RemoveShares(sym, bid, price, qty);
        x := sym;
      }
    }

    /** The old order leaves its ladder, the new one takes its side and locate; one publication. */
    method OnReplace(oldRef: nat, newRef: nat, shares: nat, price: nat)
      requires Sound()
      modifies this`orders, this`market, this`board, this`quoteUpdates, parts
      ensures Sound() && orders == NextOrders(old(orders), Cfg(), Replace(oldRef, newRef, shares, price))
      ensures old(InStep()) ==> (InStep() <==> Fresh(old(orders), Cfg(), Replace(oldRef, newRef, shares, price)))
    {
      CfgOk();
      hide Valid, Follows, Consistent, LadderChange;
      if oldRef !in orders {
        return;
      }
      ghost var view0, os := market.view, orders;
      var o := orders[oldRef];
      var bid := o.side == 'B';
      ghost var x := DropQuietly(o.locate, bid, o.price, o.shares);
      ghost var view1 := market.view;
      ReduceConsistent(view0, view1, os, oldRef, o.shares, Cfg());
      orders := orders - {oldRef};
      orders := orders[newRef := Order(price, shares, o.locate, o.side)];
      QuoteAdd(o.locate, bid, price, shares, x);
      AddConsistent(view1, market.view, os - {oldRef}, newRef, Order(price, shares, o.locate, o.side), Cfg());
    }

    method OnTrade(locate: Locate, shares: nat, price: nat)
      requires Sound()
      modifies this`prints
      ensures Sound() && prints == old(prints) + PrintsOf(orders, Cfg(), Trade(locate, shares, price))
    {
      prints := prints + [Print(symOf[locate], Int32(price), shares)];
    }

    /** A locate code is given a meaning; the ladders stay right exactly while that concerns no order they show. */
    method MapLocate(locate: Locate, sym: nat)
      requires Sound() && (sym == INVALID || sym < nSyms)
      modifies this`symOf
      ensures Sound() && Cfg() == Mapped(old(Cfg()), locate, sym)
      ensures old(InStep()) ==> (InStep() <==> Remappable(orders, old(Cfg()), locate, sym))
    {
      ghost var cfg := Cfg();
      ViewCovers();
      CfgOk();
      hide Follows, Remappable, Covers, Consistent;
      symOf := symOf[locate := sym];
      assert Cfg() == Mapped(cfg, locate, sym);
      if Consistent(market.view, orders, cfg) {
        RemapConsistent(market.view, orders, cfg, locate, sym);
      }
    }

    /** A trading action gives a locate code its meaning when it has none; what it says of the symbol is not kept here. */
    method OnTradingAction(locate: Locate, sym: nat)
      requires Sound() && (sym == INVALID || sym < nSyms)
      modifies this`symOf
      ensures Sound() && Cfg() == NextConfig(old(Cfg()), TradingAction(locate, sym))
      ensures old(InStep()) ==> (InStep() <==> Fresh(orders, old(Cfg()), TradingAction(locate, sym)))
    {
      CfgOk();
      hide Valid, Follows, Consistent, Remappable, Mapped;
      if symOf[locate] == INVALID {
        MapLocate(locate, sym);
      }
    }

    /** Every quoted symbol has ladders. */
    lemma ViewCovers()
      requires Valid()
      ensures Covers(market.view, Cfg())
    {
    }

    /** One message. */
    method Handle(m: Msg)
      requires Sound() && InTable(Cfg(), m)
      modifies this`symOf, this`orders, this`prints, this`market, this`board, this`quoteUpdates, parts
      ensures Sound() && orders == NextOrders(old(orders), old(Cfg()), m) && Cfg() == NextConfig(old(Cfg()), m)
      ensures prints == old(prints) + PrintsOf(old(orders), old(Cfg()), m)
      ensures old(InStep()) ==> (InStep() <==> Fresh(old(orders), old(Cfg()), m))
    {
      CfgOk();
      hide Valid, Follows, Consistent;
      match m {
        case Add(l, ref, side, shares, price) => OnAdd(l, ref, side, shares, price);
        case Executed(l, ref, shares) => OnExecuted(l, ref, shares);
        case ExecutedPrice(l, ref, shares, printable, price) => OnExecutedPrice(l, ref, shares, printable, price);
        case Cancel(ref, shares) => OnCancel(ref, shares);
        case Delete(ref) => OnDelete(ref);
        case Replace(o, n, shares, price) => OnReplace(o, n, shares, price);
        case Trade(l, shares, price) => OnTrade(l, shares, price);
        case Directory(l, sym) => MapLocate(l, sym);
        case TradingAction(l, sym) => OnTradingAction(l, sym);
      }
    }

    /** Any run of messages with fresh references keeps ladders, tops and board true to the live orders. */
    method Run(ms: seq<Msg>)
      requires Sound() && InStep() && Cfg().Ok() && AllInTable(Cfg(), ms) && AllFresh(orders, Cfg(), ms)
      modifies this`symOf, this`orders, this`prints, this`market, this`board, this`quoteUpdates, parts
      ensures Sound() && InStep() && orders == RunOrders(old(orders), old(Cfg()), ms) && Cfg() == RunConfig(old(Cfg()), ms)
      ensures prints == old(prints) + RunPrints(old(orders), old(Cfg()), ms)
      ensures forall s | 0 <= s < |books| && Quoted(s) ::
                && IsBest(books[s].pubBid, books[s].pubBidQ, orders, Cfg(), s, true)
                && IsBest(books[s].pubAsk, books[s].pubAskQ, orders, Cfg(), s, false)
      ensures forall s | 0 <= s < |books| && Quoted(s) && s < |board| ::
                && Quotes(board[s].bid, board[s].bidSz, orders, Cfg(), s, true)
                && Quotes(board[s].ask, board[s].askSz, orders, Cfg(), s, false)
    {
      HandleAll(ms);
      CfgOk();
      hide Valid, Follows, Consistent, RunOrders, RunConfig, RunPrints, Quotes, IsBest;
      forall s | 0 <= s < |books| && Quoted(s)
        ensures IsBest(books[s].pubBid, books[s].pubBidQ, orders, Cfg(), s, true)
        ensures IsBest(books[s].pubAsk, books[s].pubAskQ, orders, Cfg(), s, false)
        ensures s < |board| && Quotes(board[s].bid, board[s].bidSz, orders, Cfg(), s, true)
        ensures Quotes(board[s].ask, board[s].askSz, orders, Cfg(), s, false)
      {
        TopIsBest(s);
      }
    }

    method HandleAll(ms: seq<Msg>)
      requires Sound() && InStep() && Cfg().Ok() && AllInTable(Cfg(), ms) && AllFresh(orders, Cfg(), ms)
      modifies this`symOf, this`orders, this`prints, this`market, this`board, this`quoteUpdates, parts
      ensures Sound() && InStep() && orders == RunOrders(old(orders), old(Cfg()), ms) && Cfg() == RunConfig(old(Cfg()), ms)
      ensures prints == old(prints) + RunPrints(old(orders), old(Cfg()), ms)
    {
      CfgOk();
      ghost var os, cfg, told := orders, Cfg(), prints;
      assert ms[0..] == ms;
      LeadsHere(os, cfg, told, ms);
      hide Valid, Follows, Consistent, NextConfig, NextOrders, PrintsOf, Fresh, InTable, Leads, RunOrders, RunConfig, RunPrints;
      for i := 0 to |ms|
        invariant Sound() && InStep() && Leads(os, cfg, told, ms, orders, Cfg(), prints, ms[i..])
      {
        assert ms[i..][0] == ms[i] && ms[i..][1..] == ms[i + 1..];
        LeadsOn(os, cfg, told, ms, orders, Cfg(), prints, ms[i..]);
        Handle(ms[i]);
      }
      LeadsThere(os, cfg, told, ms, orders, Cfg(), prints, ms[|ms|..]);
    }

    lemma TopIsBest(s: nat)
      requires Sound() && InStep() && s < |books| && Quoted(s)
      ensures IsBest(books[s].pubBid, books[s].pubBidQ, orders, Cfg(), s, true)
      ensures IsBest(books[s].pubAsk, books[s].pubAskQ, orders, Cfg(), s, false)
      ensures s < |board| && Quotes(board[s].bid, board[s].bidSz, orders, Cfg(), s, true)
      ensures Quotes(board[s].ask, board[s].askSz, orders, Cfg(), s, false)
    {
      hide Quotes, IsBest;
      PublishedIsBest(market, orders, Cfg(), s);
      BoardIsBest(market, orders, Cfg(), s);
    }
  }

  lemma {:induction false} DuplicateAdds(cfg: Config)
    requires cfg.Ok() && cfg.Tracks(1)
    ensures var a, b := Add(1, 7, 'B', 100, 1000), Add(1, 7, 'B', 50, 1010);
            var os := NextOrders(map[], cfg, a);
            Fresh(map[], cfg, a) && !Fresh(os, cfg, b) && NextOrders(os, cfg, b) == map[7 := Order(1010, 50, 1, 'B')]
  {
    var a := Add(1, 7, 'B', 100, 1000);
    assert NextOrders(map[], cfg, a) == map[7 := Order(1000, 100, 1, 'B')];
  }

  /** Two adds under one reference: the ladder still shows the shares of the first, which no order has. */
  method DuplicateReference() returns (b: ItchBook)
    ensures b.Sound() && b.Shape() && !b.InStep() && b.orders == map[7 := Order(1010, 50, 1, 'B')]
  {
    hide ItchBook.Valid, Follows, Consistent, Fresh, NextOrders, Remappable, Config.Ok;
    b := new ItchBook(1, true, []);
    b.CfgOk();
    NothingShown(b.Cfg());
    b.MapLocate(1, 0);
    b.CfgOk();
    DuplicateAdds(b.Cfg());
    b.OnAdd(1, 7, 'B', 100, 1000);
    b.OnAdd(1, 7, 'B', 50, 1010);
  }

  lemma {:induction false} NothingShown(cfg: Config)
    requires cfg.Ok() && |cfg.quoted| == 1
    ensures Remappable(map[], cfg, 1, 0)
  {
  }

  /** Handling `rest` from (os, cfg, told) on ends where handling `ms` from the beginning does. */
  ghost predicate Leads(os0: Orders, cfg0: Config, told0: seq<Print>, ms: seq<Msg>,
                        os: Orders, cfg: Config, told: seq<Print>, rest: seq<Msg>) {
    && cfg0.Ok() && AllInTable(cfg0, ms) && cfg.Ok() && AllInTable(cfg, rest) && AllFresh(os, cfg, rest)
    && RunOrders(os, cfg, rest) == RunOrders(os0, cfg0, ms) && RunConfig(cfg, rest) == RunConfig(cfg0, ms)
    && told + RunPrints(os, cfg, rest) == told0 + RunPrints(os0, cfg0, ms)
  }

  lemma {:induction false} LeadsHere(os: Orders, cfg: Config, told: seq<Print>, ms: seq<Msg>)
    requires cfg.Ok() && AllInTable(cfg, ms) && AllFresh(os, cfg, ms)
    ensures Leads(os, cfg, told, ms, os, cfg, told, ms)
  {
  }

  lemma {:induction false} LeadsOn(os0: Orders, cfg0: Config, told0: seq<Print>, ms: seq<Msg>,
                                   os: Orders, cfg: Config, told: seq<Print>, rest: seq<Msg>)
    requires Leads(os0, cfg0, told0, ms, os, cfg, told, rest) && rest != []
    ensures cfg.Ok() && InTable(cfg, rest[0]) && Fresh(os, cfg, rest[0])
    ensures Leads(os0, cfg0, told0, ms, NextOrders(os, cfg, rest[0]), NextConfig(cfg, rest[0]), told + PrintsOf(os, cfg, rest[0]),
                  rest[1..])
  {
    hide NextOrders, NextConfig, PrintsOf, Fresh, InTable, AllInTable, AllFresh, RunOrders, RunConfig, RunPrints;
    FreshUnfolds(os, cfg, rest);
    RunUnfolds(os, cfg, rest);
    Rejoin(told, PrintsOf(os, cfg, rest[0]), RunPrints(NextOrders(os, cfg, rest[0]), NextConfig(cfg, rest[0]), rest[1..]));
  }

  lemma {:induction false} FreshUnfolds(os: Orders, cfg: Config, ms: seq<Msg>)
    requires cfg.Ok() && AllInTable(cfg, ms) && AllFresh(os, cfg, ms) && ms != []
    ensures InTable(cfg, ms[0]) && Fresh(os, cfg, ms[0])
    ensures AllInTable(NextConfig(cfg, ms[0]), ms[1..])
            && AllFresh(NextOrders(os, cfg, ms[0]), NextConfig(cfg, ms[0]), ms[1..])
  {
    hide NextOrders, NextConfig, Fresh, InTable;
    RestInTable(cfg, NextConfig(cfg, ms[0]), ms);
  }

  lemma {:induction false} RunUnfolds(os: Orders, cfg: Config, ms: seq<Msg>)
    requires cfg.Ok() && AllInTable(cfg, ms) && ms != []
    ensures InTable(cfg, ms[0]) && AllInTable(NextConfig(cfg, ms[0]), ms[1..])
    ensures var os', cfg' := NextOrders(os, cfg, ms[0]), NextConfig(cfg, ms[0]);
            && RunOrders(os, cfg, ms) == RunOrders(os', cfg', ms[1..]) && RunConfig(cfg, ms) == RunConfig(cfg', ms[1..])
            && RunPrints(os, cfg, ms) == PrintsOf(os, cfg, ms[0]) + RunPrints(os', cfg', ms[1..])
  {
    hide NextOrders, NextConfig, Fresh, InTable, PrintsOf;
    RestInTable(cfg, NextConfig(cfg, ms[0]), ms);
  }

  lemma {:induction false} Rejoin(a: seq<Print>, b: seq<Print>, c: seq<Print>)
    ensures a + (b + c) == (a + b) + c
  {
  }

  lemma {:induction false} LeadsThere(os0: Orders, cfg0: Config, told0: seq<Print>, ms: seq<Msg>,
                                      os: Orders, cfg: Config, told: seq<Print>, rest: seq<Msg>)
    requires Leads(os0, cfg0, told0, ms, os, cfg, told, rest) && rest == []
    ensures cfg0.Ok() && AllInTable(cfg0, ms) && os == RunOrders(os0, cfg0, ms) && cfg == RunConfig(cfg0, ms)
    ensures told == told0 + RunPrints(os0, cfg0, ms)
  {
  }

  lemma {:induction false} RestInTable(cfg: Config, c: Config, ms: seq<Msg>)
    requires ms != [] && AllInTable(cfg, ms) && c.quoted == cfg.quoted
    ensures InTable(cfg, ms[0]) && AllInTable(c, ms[1..])
  {
  }

  // ---- giving a locate code a new meaning ----

  ghost predicate Covers(view: View, cfg: Config) {
    forall s :: 0 <= s < |cfg.quoted| && cfg.quoted[s] ==> s < |view|
  }

  /** Where no order has a larger share, the total is not larger; it is smaller if one of them has a smaller one. */
  lemma {:induction false} TotalAtMost(orders: Orders, cfg: Config, cfg': Config, s: nat, b: bool, p: nat, x: nat)
    requires forall k :: k in orders ==> Share(orders[k], cfg', s, b, p) <= Share(orders[k], cfg, s, b, p)
    ensures Total(orders, cfg', s, b, p) <= Total(orders, cfg, s, b, p)
    ensures x in orders && Share(orders[x], cfg', s, b, p) < Share(orders[x], cfg, s, b, p)
            ==> Total(orders, cfg', s, b, p) < Total(orders, cfg, s, b, p)
    decreases orders.Keys
  {
    hide Share;
    if orders != map[] {
      var k :| k in orders;
      TotalRemove(orders, k, cfg, s, b, p);
      TotalRemove(orders, k, cfg', s, b, p);
      TotalAtMost(orders - {k}, cfg, cfg', s, b, p, x);
    }
  }

  /** The ladders stay right if the orders concerned are in none of them, before or after. */
  lemma {:induction false} RemapKeeps(view: View, orders: Orders, cfg: Config, l: Locate, sym: nat)
    requires cfg.Ok() && (sym == INVALID || sym < |cfg.quoted|) && Consistent(view, orders, cfg) && Remappable(orders, cfg, l, sym)
    ensures Consistent(view, orders, Mapped(cfg, l, sym))
  {
    var cfg' := Mapped(cfg, l, sym);
    if sym == cfg.symOf[l] {
      assert cfg' == cfg;
    } else {
      forall s, b | 0 <= s < |view| && s < |cfg.quoted| && cfg.quoted[s] ensures Agrees(view[s].Of(b), orders, cfg', s, b) {
        assert Agrees(view[s].Of(b), orders, cfg, s, b);
        forall p ensures QtyAt(view[s].Of(b), p) == Total(orders, cfg', s, b, p) {
          SameShares(orders, cfg, l, sym, s, b, p);
          hide Share, Consistent, Agrees, Remappable, Mapped;
          TotalAtMost(orders, cfg, cfg', s, b, p, 0);
          TotalAtMost(orders, cfg', cfg, s, b, p, 0);
        }
      }
    }
  }

  lemma {:induction false} SameShares(orders: Orders, cfg: Config, l: Locate, sym: nat, s: nat, b: bool, p: nat)
    requires cfg.Ok() && (sym == INVALID || sym < |cfg.quoted|) && Remappable(orders, cfg, l, sym)
    requires s < |cfg.quoted| && cfg.quoted[s]
    ensures forall k :: k in orders
              ==> Share(orders[k], Mapped(cfg, l, sym), s, b, p) == Share(orders[k], cfg, s, b, p)
  {
  }

  /** An order that leaves or enters a ladder by the change puts that ladder wrong. */
  lemma {:induction false} RemapBreaks(view: View, orders: Orders, cfg: Config, l: Locate, sym: nat, k: nat)
    requires cfg.Ok() && (sym == INVALID || sym < |cfg.quoted|) && Consistent(view, orders, cfg) && Covers(view, cfg)
    requires sym != cfg.symOf[l] && k in orders && orders[k].locate == l
    requires Counted(orders[k], cfg) || Counted(orders[k], Mapped(cfg, l, sym))
    ensures !Consistent(view, orders, Mapped(cfg, l, sym))
  {
    var cfg' := Mapped(cfg, l, sym);
    var o := orders[k];
    var b, p := o.side == 'B', o.price;
    var s: nat := if Counted(o, cfg) then cfg.symOf[l] else sym;
    OneWay(orders, cfg, l, sym, s, b, p);
    assert s < |view| && cfg.quoted[s];
    if Counted(o, cfg) {
      TotalAtMost(orders, cfg, cfg', s, b, p, k);
    } else {
      TotalAtMost(orders, cfg', cfg, s, b, p, k);
    }
    assert Agrees(view[s].Of(b), orders, cfg, s, b);
    assert QtyAt(view[s].Of(b), p) != Total(orders, cfg', s, b, p);
    assert !Agrees(view[s].Of(b), orders, cfg', s, b);
  }

  lemma {:induction false} OneWay(orders: Orders, cfg: Config, l: Locate, sym: nat, s: nat, b: bool, p: nat)
    requires cfg.Ok() && (sym == INVALID || sym < |cfg.quoted|) && sym != cfg.symOf[l]
    ensures var cfg' := Mapped(cfg, l, sym);
            && (s == cfg.symOf[l] ==> forall k :: k in orders ==> Share(orders[k], cfg', s, b, p) <= Share(orders[k], cfg, s, b, p))
            && (s == sym ==> forall k :: k in orders ==> Share(orders[k], cfg, s, b, p) <= Share(orders[k], cfg', s, b, p))
  {
  }

  lemma {:induction false} RemapConsistent(view: View, orders: Orders, cfg: Config, l: Locate, sym: nat)
    requires cfg.Ok() && (sym == INVALID || sym < |cfg.quoted|) && Consistent(view, orders, cfg) && Covers(view, cfg)
    ensures Consistent(view, orders, Mapped(cfg, l, sym)) <==> Remappable(orders, cfg, l, sym)
  {
    hide Consistent, Counted, Covers;
    if Remappable(orders, cfg, l, sym) {
      RemapKeeps(view, orders, cfg, l, sym);
    } else {
      var k :| k in orders && orders[k].locate == l && (Counted(orders[k], cfg) || Counted(orders[k], Mapped(cfg, l, sym)));
      RemapBreaks(view, orders, cfg, l, sym, k);
    }
  }
}

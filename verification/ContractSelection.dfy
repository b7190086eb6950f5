/** Contract selection with roll hysteresis: an eligible incumbent stays unless a challenger
    has both more open interest and more volume. */
module ContractSelection {
  import opened Wrappers
  import opened ActivityTracker

  type Product = nat
  type Date = int

  /** A date field of the catalog: empty, unreadable, or a date. */
  datatype DateField = Absent | Malformed | On(date: Date)

  datatype ContractInfo = ContractInfo(symbol: Symbol, product: Product, exchange: nat, listing: DateField,
                                       expiry: DateField)

  datatype Config = Config(products: set<Product>, exchanges: set<nat>, minDaysToExpiry: int, minVolume: real,
                           minOpenInterest: real)

  datatype Row = Row(openInterest: real, volume: real, expiry: Date, item: ContractInfo)

  // ---- Ranking ----

  /** `sort(key=lambda row: (-row[0], -row[1], row[2], row[3].symbol))` */
  predicate Before(x: Row, y: Row) {
    || x.openInterest > y.openInterest
    || (x.openInterest == y.openInterest && x.volume > y.volume)
    || (x.openInterest == y.openInterest && x.volume == y.volume && x.expiry < y.expiry)
    || (x.openInterest == y.openInterest && x.volume == y.volume && x.expiry == y.expiry
        && x.item.symbol < y.item.symbol)
  }

  /** The head of the stably sorted rows. */
  function Least(rows: seq<Row>): (least: Row)
    requires rows != []
    ensures least in rows
  {
    var last := rows[|rows| - 1];
    if |rows| == 1 then last
    else
      var least := Least(rows[..|rows| - 1]);
      if Before(last, least) then last else least
  }

  datatype Test = Any | Named(symbol: Symbol) | Beats(incumbent: Row)

  predicate Passes(test: Test, row: Row) {
    match test
    case Any => true
    case Named(symbol) => row.item.symbol == symbol
    case Beats(incumbent) => row.openInterest > incumbent.openInterest && row.volume > incumbent.volume
  }

  function Keep(rows: seq<Row>, test: Test): seq<Row> {
    if rows == [] then []
    else
      var init, last := Keep(rows[..|rows| - 1], test), rows[|rows| - 1];
      if Passes(test, last) then init + [last] else init
  }

  lemma {:induction false} KeepKeeps(rows: seq<Row>, test: Test)
    ensures forall r :: r in Keep(rows, test) <==> r in rows && Passes(test, r)
  {
    if rows != [] {
      KeepKeeps(rows[..|rows| - 1], test);
      assert rows == rows[..|rows| - 1] + [rows[|rows| - 1]];
    }
  }

  lemma {:induction false} KeepAny(rows: seq<Row>)
    ensures Keep(rows, Any) == rows
  {
    if rows != [] {
      KeepAny(rows[..|rows| - 1]);
    }
  }

  lemma {:induction false} LeastIsMinimal(rows: seq<Row>, r: Row)
    requires r in rows
    ensures !Before(r, Least(rows))
  {
    var init := rows[..|rows| - 1];
    assert rows == init + [rows[|rows| - 1]];
    if r in init {
      LeastIsMinimal(init, r);
    }
  }

  /** The best of a wider field is also the best of a narrower one it belongs to. */
  lemma {:induction false} BestOfFewer(rows: seq<Row>, wide: Test, narrow: Test)
    requires forall r | r in rows && Passes(narrow, r) :: Passes(wide, r)
    requires Keep(rows, wide) != [] && Passes(narrow, Least(Keep(rows, wide)))
    ensures Keep(rows, narrow) != [] && Least(Keep(rows, narrow)) == Least(Keep(rows, wide))
  {
    hide *;
    KeepLast(rows, wide);
    KeepLast(rows, narrow);
    var init, last := rows[..|rows| - 1], rows[|rows| - 1];
    KeepKeeps(init, wide);
    KeepKeeps(init, narrow);
    var w, n := Keep(init, wide), Keep(init, narrow);
    LeastWithLast(w, last);
    LeastWithLast(n, last);
    if w != [] && Least(Keep(rows, wide)) == Least(w) {
      BestOfFewer(init, wide, narrow);
    } else if n != [] {
      LeastIsMinimal(w, Least(n));
      BeforeTheRest(last, Least(w), Least(n));
    }
  }

  /** What comes before a row comes before everything that row precedes or ties with. */
  lemma BeforeTheRest(x: Row, y: Row, z: Row)
    requires Before(x, y) && !Before(z, y)
    ensures Before(x, z)
  {
  }

  lemma KeepLast(rows: seq<Row>, test: Test)
    ensures rows == [] ==> Keep(rows, test) == []
    ensures rows != [] ==>
              var init, last := rows[..|rows| - 1], rows[|rows| - 1];
              && rows == init + [last]
              && Keep(rows, test) == if Passes(test, last) then Keep(init, test) + [last] else Keep(init, test)
  {
    hide Passes;
  }

  lemma LeastWithLast(rows: seq<Row>, last: Row)
    ensures Least(rows + [last]) == if rows == [] || Before(last, Least(rows)) then last else Least(rows)
  {
    assert (rows + [last])[..|rows|] == rows;
  }

  // ---- Choosing for one product ----

  function Choose(rows: seq<Row>, preferred: Option<Symbol>): Row
    requires rows != []
  {
    var incumbents := if preferred.Some? then Keep(rows, Named(preferred.value)) else [];
    if incumbents == [] then Least(rows)
    else
      var incumbent := Least(incumbents);
      var dominant := Keep(rows, Beats(incumbent));
      if dominant == [] then incumbent else Least(dominant)
  }

  /** Rows of one symbol carry that symbol's one activity. */
  predicate OneActivityPerSymbol(rows: seq<Row>) {
    forall x, y | x in rows && y in rows && x.item.symbol == y.item.symbol ::
      x.openInterest == y.openInterest && x.volume == y.volume
  }

  /** Nobody beats the chosen contract on both counts. */
  lemma {:induction false} ChoiceIsUndominated(rows: seq<Row>, preferred: Option<Symbol>, r: Row)
    requires rows != [] && r in rows
    ensures var best := Choose(rows, preferred);
            best in rows && !(r.openInterest > best.openInterest && r.volume > best.volume)
  {
    var incumbents := if preferred.Some? then Keep(rows, Named(preferred.value)) else [];
    if incumbents == [] {
      LeastIsMinimal(rows, r);
    } else {
      var incumbent := Least(incumbents);
      KeepKeeps(rows, Named(preferred.value));
      var dominant := Keep(rows, Beats(incumbent));
      KeepKeeps(rows, Beats(incumbent));
      if dominant != [] && Passes(Beats(Least(dominant)), r) {
        LeastIsMinimal(dominant, r);
      }
    }
  }

  /** Among the contracts that could have been chosen, the choice ranks highest: by open interest, then
      volume, then the earlier expiry, then the smaller symbol. Without an eligible incumbent those are
      all; with one that was replaced, they are the ones that beat it on both counts. */
  lemma {:induction false} ChoiceRanksHighest(rows: seq<Row>, preferred: Option<Symbol>, r: Row)
    requires OneActivityPerSymbol(rows) && r in rows
    requires forall i | i in rows && preferred == Some(i.item.symbol) ::
               && Choose(rows, preferred).item.symbol != i.item.symbol
               && r.openInterest > i.openInterest && r.volume > i.volume
    ensures var best := Choose(rows, preferred);
            || best.openInterest > r.openInterest
            || (best.openInterest == r.openInterest && best.volume > r.volume)
            || (best.openInterest == r.openInterest && best.volume == r.volume && best.expiry < r.expiry)
            || (best.openInterest == r.openInterest && best.volume == r.volume && best.expiry == r.expiry
                && best.item.symbol <= r.item.symbol)
  {
    hide Least, Keep;
    if preferred.Some? {
      KeepKeeps(rows, Named(preferred.value));
    }
    var incumbents := if preferred.Some? then Keep(rows, Named(preferred.value)) else [];
    if incumbents == [] {
      LeastIsMinimal(rows, r);
    } else {
      var incumbent := Least(incumbents);
      KeepKeeps(rows, Beats(incumbent));
      LeastIsMinimal(Keep(rows, Beats(incumbent)), r);
    }
  }

  /** An eligible incumbent is replaced exactly when it is dominated. */
  lemma {:induction false} IncumbentStaysUnlessDominated(rows: seq<Row>, incumbent: Row)
    requires incumbent in rows && OneActivityPerSymbol(rows)
    ensures Choose(rows, Some(incumbent.item.symbol)).item.symbol == incumbent.item.symbol
            <==> forall r | r in rows :: !(r.openInterest > incumbent.openInterest && r.volume > incumbent.volume)
  {
    var incumbents := Keep(rows, Named(incumbent.item.symbol));
    KeepKeeps(rows, Named(incumbent.item.symbol));
    assert incumbent in incumbents;
    KeepKeeps(rows, Beats(Least(incumbents)));
  }

  /** Choosing again with the choice as incumbent changes nothing. */
  lemma {:induction false} ChoiceIsStable(rows: seq<Row>, preferred: Option<Symbol>)
    requires rows != [] && OneActivityPerSymbol(rows)
    ensures Choose(rows, Some(Choose(rows, preferred).item.symbol)) == Choose(rows, preferred)
  {
    var chosen := Choose(rows, preferred);
    var again := Named(chosen.item.symbol);
    KeepKeeps(rows, again);
    KeepAny(rows);
    forall r | r in rows
      ensures !Passes(Beats(chosen), r)
    {
      ChoiceIsUndominated(rows, preferred, r);
    }
    KeepKeeps(rows, Beats(chosen));
    var incumbents := if preferred.Some? then Keep(rows, Named(preferred.value)) else [];
    if incumbents == [] {
      BestOfFewer(rows, Any, again);
    } else {
      KeepKeeps(rows, Named(preferred.value));
      var incumbent := Least(incumbents);
      KeepKeeps(rows, Beats(incumbent));
      if Keep(rows, Beats(incumbent)) == [] {
        assert again == Named(preferred.value);
      } else {
        BestOfFewer(rows, Beats(incumbent), again);
      }
    }
  }

  // ---- select_contracts_from_activity ----

  predicate Eligible(config: Config, snapshot: Snapshot, planned: Date, item: ContractInfo) {
    && item.product in config.products && item.exchange in config.exchanges
    && (item.listing == Absent || (item.listing.On? && item.listing.date <= planned))
    && item.expiry.On? && item.expiry.date - planned >= config.minDaysToExpiry
    && item.symbol in snapshot.contracts
    && var activity := snapshot.contracts[item.symbol];
       && activity.day == snapshot.day
       && activity.exchange == item.exchange && activity.product == item.product
       && activity.volume >= config.minVolume && activity.openInterest >= config.minOpenInterest
  }

  function RowOf(snapshot: Snapshot, item: ContractInfo): Row
    requires item.symbol in snapshot.contracts && item.expiry.On?
  {
    Row(snapshot.contracts[item.symbol].openInterest, snapshot.contracts[item.symbol].volume, item.expiry.date, item)
  }

  /** The eligible rows of a product, in catalog order. */
  function Candidates(config: Config, snapshot: Snapshot, planned: Date, catalog: seq<ContractInfo>,
                      p: Product): seq<Row> {
    if catalog == [] then []
    else
      var init, last := Candidates(config, snapshot, planned, catalog[..|catalog| - 1], p), catalog[|catalog| - 1];
      if last.product == p && Eligible(config, snapshot, planned, last) then init + [RowOf(snapshot, last)] else init
  }

  lemma {:induction false} CandidatesAgree(config: Config, snapshot: Snapshot, planned: Date,
                                           catalog: seq<ContractInfo>, p: Product)
    ensures forall r | r in Candidates(config, snapshot, planned, catalog, p) ::
              && r.item in catalog && r.item.product == p && Eligible(config, snapshot, planned, r.item)
              && r == RowOf(snapshot, r.item)
    ensures OneActivityPerSymbol(Candidates(config, snapshot, planned, catalog, p))
  {
    if catalog != [] {
      CandidatesAgree(config, snapshot, planned, catalog[..|catalog| - 1], p);
    }
  }

  /** A contract is a candidate of its product exactly when the catalog lists it, it is configured and
      listed, far enough from expiry, and active enough in the completed snapshot; its row carries that
      activity. */
  lemma {:induction false} CandidatesAreEligible(config: Config, snapshot: Snapshot, planned: Date,
                                                 catalog: seq<ContractInfo>, p: Product, item: ContractInfo)
    ensures (exists r :: r in Candidates(config, snapshot, planned, catalog, p) && r.item == item) <==>
              && item in catalog && item.product == p && p in config.products && item.exchange in config.exchanges
              && !item.listing.Malformed? && (item.listing.On? ==> item.listing.date <= planned)
              && item.expiry.On? && planned + config.minDaysToExpiry <= item.expiry.date
              && item.symbol in snapshot.contracts
              && snapshot.contracts[item.symbol].day == snapshot.day
              && snapshot.contracts[item.symbol].exchange == item.exchange
              && snapshot.contracts[item.symbol].product == p
              && snapshot.contracts[item.symbol].volume >= config.minVolume
              && snapshot.contracts[item.symbol].openInterest >= config.minOpenInterest
    ensures forall r | r in Candidates(config, snapshot, planned, catalog, p) ::
              && r.item.symbol in snapshot.contracts && r.item.expiry == On(r.expiry)
              && r.openInterest == snapshot.contracts[r.item.symbol].openInterest
              && r.volume == snapshot.contracts[r.item.symbol].volume
  {
    CandidatesAgree(config, snapshot, planned, catalog, p);
    if item.product == p {
      EveryEligibleIsThere(config, snapshot, planned, catalog, p, item);
    }
    hide Candidates;
  }

  lemma {:induction false} EveryEligibleIsThere(config: Config, snapshot: Snapshot, planned: Date,
                                                catalog: seq<ContractInfo>, p: Product, item: ContractInfo)
    requires item.product == p
    ensures item in catalog && Eligible(config, snapshot, planned, item) ==>
              RowOf(snapshot, item) in Candidates(config, snapshot, planned, catalog, p)
  {
    if catalog != [] {
      hide Eligible;
      var init, last := catalog[..|catalog| - 1], catalog[|catalog| - 1];
      assert catalog == init + [last];
      EveryEligibleIsThere(config, snapshot, planned, init, p, item);
    }
  }

  method Group(config: Config, snapshot: Snapshot, planned: Date, catalog: seq<ContractInfo>)
    returns (candidates: map<Product, seq<Row>>)
    ensures forall p ::
              (if p in candidates then candidates[p] else []) == Candidates(config, snapshot, planned, catalog, p)
    ensures forall p | p in candidates :: candidates[p] != [] && p in config.products
  {
    candidates := map[];
    for i := 0 to |catalog|
      invariant forall p ::
                  (if p in candidates then candidates[p] else [])
                      == Candidates(config, snapshot, planned, catalog[..i], p)
      invariant forall p | p in candidates :: candidates[p] != [] && p in config.products
    {
      var item := catalog[i];
      assert catalog[..i + 1][..i] == catalog[..i];
      if Eligible(config, snapshot, planned, item) {
        var rows := if item.product in candidates then candidates[item.product] else [];
        candidates := candidates[item.product := rows + [RowOf(snapshot, item)]];
      }
    }
    assert catalog[..|catalog|] == catalog;
  }

  method Head(rows: seq<Row>) returns (least: Row)
    requires rows != []
    ensures least == Least(rows)
  {
    least := rows[0];
    for i := 1 to |rows|
      invariant least == Least(rows[..i])
    {
      assert rows[..i + 1][..i] == rows[..i];
      if Before(rows[i], least) {
        least := rows[i];
      }
    }
    assert rows[..|rows|] == rows;
  }

  method Filter(rows: seq<Row>, test: Test) returns (kept: seq<Row>)
    ensures kept == Keep(rows, test)
  {
    kept := [];
    for i := 0 to |rows|
      invariant kept == Keep(rows[..i], test)
    {
      assert rows[..i + 1][..i] == rows[..i];
      if Passes(test, rows[i]) {
        kept := kept + [rows[i]];
      }
    }
    assert rows[..|rows|] == rows;
  }

  method ChooseRow(rows: seq<Row>, preferred: Option<Symbol>) returns (row: Row)
    requires rows != []
    ensures row == Choose(rows, preferred)
  {
    var incumbents := [];
    if preferred.Some? {
      incumbents := Filter(rows, Named(preferred.value));
    }
    if incumbents == [] {
      row := Head(rows);
    } else {
      var incumbent := Head(incumbents);
      var dominant := Filter(rows, Beats(incumbent));
      if dominant == [] {
        row := incumbent;
      } else {
        row := Head(dominant);
      }
    }
  }

  function Preferred(preferred: map<Product, Symbol>, p: Product): Option<Symbol> {
    if p in preferred then Some(preferred[p]) else None
  }

  /** The whole selection, product by product. */
  ghost function Selected(config: Config, snapshot: Snapshot, planned: Date, catalog: seq<ContractInfo>,
                          preferred: map<Product, Symbol>): map<Product, ContractInfo>
  {
    map p | p in config.products && Candidates(config, snapshot, planned, catalog, p) != [] ::
      Choose(Candidates(config, snapshot, planned, catalog, p), Preferred(preferred, p)).item
  }

  method SelectContractsFromActivity(config: Config, catalog: seq<ContractInfo>, snapshot: Option<Snapshot>,
                                     planned: Date,
                                     preferred: map<Product, Symbol>)
    returns (result: map<Product, ContractInfo>)
    ensures result == if snapshot.None? then map[] else Selected(config, snapshot.value, planned, catalog, preferred)
  {
    hide Choose, Eligible;
    result := map[];
    if snapshot.None? {
      return;
    }
    var candidates := Group(config, snapshot.value, planned, catalog);
    var left := candidates.Keys;
    while left != {}
      invariant left <= candidates.Keys && result.Keys == candidates.Keys - left
      invariant forall p | p in result :: result[p] == Choose(candidates[p], Preferred(preferred, p)).item
      decreases left
    {
      var p :| p in left;
      left := left - {p};
      var row := ChooseRow(candidates[p], Preferred(preferred, p));
      result := result[p := row.item];
    }
  }

  function SymbolsOf(result: map<Product, ContractInfo>): map<Product, Symbol> {
    map p | p in result :: result[p].symbol
  }

  /** In the selection: the incumbent of a product that is still eligible stays unless another candidate
      of the product has both more open interest and more volume; and a product is left out exactly when
      it has no candidate. */
  lemma {:induction false} EligibleIncumbentStays(config: Config, snapshot: Snapshot, planned: Date,
                                                  catalog: seq<ContractInfo>, preferred: map<Product, Symbol>,
                                                  p: Product)
    requires p in config.products
    ensures var rows := Candidates(config, snapshot, planned, catalog, p);
            var selected := Selected(config, snapshot, planned, catalog, preferred);
            && (p in selected <==> rows != [])
            && (p in selected ==> exists r :: r in rows && r.item == selected[p])
            && forall i | i in rows && p in preferred && preferred[p] == i.item.symbol ::
                 selected[p].symbol == preferred[p]
                 <==> forall r | r in rows :: !(r.openInterest > i.openInterest && r.volume > i.volume)
  {
    CandidatesAgree(config, snapshot, planned, catalog, p);
    hide Choose, Candidates, Eligible;
    var rows := Candidates(config, snapshot, planned, catalog, p);
    if rows != [] {
      ChoiceIsUndominated(rows, Preferred(preferred, p), rows[0]);
    }
    forall i | i in rows && p in preferred && preferred[p] == i.item.symbol
      ensures Choose(rows, Preferred(preferred, p)).item.symbol == preferred[p]
              <==> forall r | r in rows :: !(r.openInterest > i.openInterest && r.volume > i.volume)
    {
      IncumbentStaysUnlessDominated(rows, i);
    }
  }

  /** Selecting again on the same evidence, with the last result as incumbents, repeats it. */
  lemma {:induction false} SelectionIsStable(config: Config, snapshot: Snapshot, planned: Date,
                                             catalog: seq<ContractInfo>, preferred: map<Product, Symbol>)
    ensures var first := Selected(config, snapshot, planned, catalog, preferred);
            Selected(config, snapshot, planned, catalog, SymbolsOf(first)) == first
  {
    hide Choose, Eligible;
    var first := Selected(config, snapshot, planned, catalog, preferred);
    forall p | p in first
      ensures Choose(Candidates(config, snapshot, planned, catalog, p), Preferred(SymbolsOf(first), p)).item == first[p]
    {
      CandidatesAgree(config, snapshot, planned, catalog, p);
      ChoiceIsStable(Candidates(config, snapshot, planned, catalog, p), Preferred(preferred, p));
    }
  }
}

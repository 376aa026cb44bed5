/** The AI agent's coin lookup table (miner/agents/ai_agent.py, `_load_coin_lookup` and
    `_find_crypto_symbol`): a dict from lower-case symbols, lower-case names and ids to coin
    ids, filled once from the market listing and searched in insertion order. */
module CoinLookup {
  import opened Wrappers
  import opened Json
  import opened Text

  /** One listed coin, with its symbol and name already lower-cased. */
  datatype Coin = Coin(id: string, symbol: string, name: string)

  /** A listing entry the model reads: a dict whose `id`, `symbol` and `name` are strings.
      A missing key, or a `symbol` or `name` that is not a string, raises before anything of
      the entry is stored. An `id` of another type is also read as raising here, although
      the loop stores it under the symbol and the name first, and a hashable one (a number)
      under itself too, and then goes on. */
  function CoinOf(v: Value): (r: Option<Coin>)
    ensures r.Some? <==> v.Obj? && "id" in v.fields && v.fields["id"].Str?
                         && "symbol" in v.fields && v.fields["symbol"].Str?
                         && "name" in v.fields && v.fields["name"].Str?
    ensures r.Some? ==> r.value == Coin(v.fields["id"].s, ToLower(v.fields["symbol"].s), ToLower(v.fields["name"].s))
  {
    if v.Obj? && "id" in v.fields && v.fields["id"].Str?
       && "symbol" in v.fields && v.fields["symbol"].Str?
       && "name" in v.fields && v.fields["name"].Str?
    then Some(Coin(v.fields["id"].s, ToLower(v.fields["symbol"].s), ToLower(v.fields["name"].s)))
    else None
  }

  /** The end of the run of readable entries starting at `k`. */
  function ReadableFrom(items: seq<Value>, k: nat): (n: nat)
    requires k <= |items|
    ensures k <= n <= |items|
    ensures forall j :: k <= j < n ==> CoinOf(items[j]).Some?
    ensures n < |items| ==> CoinOf(items[n]).None?
    decreases |items| - k
  {
    if k < |items| && CoinOf(items[k]).Some? then ReadableFrom(items, k + 1) else k
  }

  /** The first `n` entries, read as coins. */
  function Coins(items: seq<Value>, n: nat): (coins: seq<Coin>)
    requires n <= |items| && forall j :: 0 <= j < n ==> CoinOf(items[j]).Some?
    ensures |coins| == n && forall j :: 0 <= j < n ==> coins[j] == CoinOf(items[j]).value
  {
    seq(n, j requires 0 <= j < n => CoinOf(items[j]).value)
  }

  /** The first `|coins|` entries read as `coins`. */
  ghost predicate ReadAs(items: seq<Value>, coins: seq<Coin>) {
    |coins| <= |items| && forall j :: 0 <= j < |coins| ==> CoinOf(items[j]) == Some(coins[j])
  }

  lemma ReadAsSnoc(items: seq<Value>, coins: seq<Coin>, c: Coin)
    requires ReadAs(items, coins) && |coins| < |items| && CoinOf(items[|coins|]) == Some(c)
    ensures ReadAs(items, coins + [c])
  {
  }

  /** A run of readable entries ending at an unreadable one, or at the end, is the whole
      readable prefix, and reading it gives the coins read one by one. */
  lemma CoinsAre(items: seq<Value>, n: nat, coins: seq<Coin>)
    requires ReadAs(items, coins) && |coins| == n
    requires n < |items| ==> CoinOf(items[n]).None?
    ensures ReadableFrom(items, 0) == n && Coins(items, n) == coins
  {
    var r := ReadableFrom(items, 0);
    assert r == n;
    assert Coins(items, n) == coins;
  }

  // ---- the table as a value ----

  /** A Python dict from strings to strings: its keys in insertion order, and the mapping. */
  datatype Lookup = Lookup(order: seq<string>, ids: map<string, string>)

  /** Keys are listed once each, and exactly the mapped keys are listed. */
  ghost predicate WellOrdered(l: Lookup) {
    (forall i, j :: 0 <= i < j < |l.order| ==> l.order[i] != l.order[j])
    && (forall k :: k in l.ids <==> k in l.order)
  }

  /** `d[k] = v`: a new key goes last, an existing key keeps its place. */
  function Put(l: Lookup, k: string, v: string): (r: Lookup)
    requires WellOrdered(l)
    ensures WellOrdered(r) && r.ids == l.ids[k := v]
    ensures k in l.ids ==> r.order == l.order
    ensures k !in l.ids ==> r.order == l.order + [k]
  {
    if k in l.ids then Lookup(l.order, l.ids[k := v]) else Lookup(l.order + [k], l.ids[k := v])
  }

  /** One pass of the loop body: symbol, then name, then id, each mapped to the id. */
  function AddCoin(l: Lookup, c: Coin): (r: Lookup)
    requires WellOrdered(l)
    ensures WellOrdered(r) && l.order <= r.order
    ensures r.ids == l.ids[c.symbol := c.id][c.name := c.id][c.id := c.id]
  {
    Put(Put(Put(l, c.symbol, c.id), c.name, c.id), c.id, c.id)
  }

  /** The mapping the loop leaves, apart from the key order. */
  function Stored(ids: map<string, string>, coins: seq<Coin>): map<string, string>
    decreases |coins|
  {
    if |coins| == 0 then ids
    else
      var c := coins[|coins| - 1];
      Stored(ids, coins[..|coins| - 1])[c.symbol := c.id][c.name := c.id][c.id := c.id]
  }

  /** The loop over a sequence of coins. */
  function AddCoins(l: Lookup, coins: seq<Coin>): (r: Lookup)
    requires WellOrdered(l)
    ensures WellOrdered(r) && l.order <= r.order
    ensures r.ids == Stored(l.ids, coins)
    decreases |coins|
  {
    if |coins| == 0 then l else AddCoin(AddCoins(l, coins[..|coins| - 1]), coins[|coins| - 1])
  }

  /** Loading one more coin is one more pass of the loop body. */
  lemma AddCoinsSnoc(l: Lookup, coins: seq<Coin>, c: Coin)
    requires WellOrdered(l)
    ensures AddCoins(l, coins + [c]) == AddCoin(AddCoins(l, coins), c)
  {
    assert (coins + [c])[..|coins|] == coins;
  }

  /** A coin supplies the key `k` through its symbol, its name or its id. */
  predicate Mentions(c: Coin, k: string) {
    k == c.symbol || k == c.name || k == c.id
  }

  /** The id of the last coin that supplies `k`, if any: the reference reading of "later
      coins overwrite earlier ones". */
  function LastMention(coins: seq<Coin>, k: string): (r: Option<string>)
    ensures r.None? <==> forall j :: 0 <= j < |coins| ==> !Mentions(coins[j], k)
    ensures r.Some? ==> exists j :: 0 <= j < |coins| && Mentions(coins[j], k) && r.value == coins[j].id
    decreases |coins|
  {
    if |coins| == 0 then None
    else if Mentions(coins[|coins| - 1], k) then Some(coins[|coins| - 1].id)
    else LastMention(coins[..|coins| - 1], k)
  }

  /** After loading, a key supplied by some coin maps to the id of the last coin supplying it;
      every other key is as it was. */
  lemma {:induction false} StoredEntries(ids: map<string, string>, coins: seq<Coin>, k: string)
    ensures LastMention(coins, k).Some? ==>
      k in Stored(ids, coins) && Stored(ids, coins)[k] == LastMention(coins, k).value
    ensures LastMention(coins, k).None? ==>
      (k in Stored(ids, coins) <==> k in ids) && (k in ids ==> Stored(ids, coins)[k] == ids[k])
    decreases |coins|
  {
    if |coins| > 0 {
      StoredEntries(ids, coins[..|coins| - 1], k);
    }
  }

  /** Loaded into an empty table, every value stored is the id of a listed coin, and the last
      coin's symbol, name and id all map to its id. */
  lemma LoadedValuesAreIds(coins: seq<Coin>, k: string)
    ensures var ids := AddCoins(Lookup([], map[]), coins).ids;
      && (k in ids ==> exists j :: 0 <= j < |coins| && ids[k] == coins[j].id)
      && (|coins| > 0 && Mentions(coins[|coins| - 1], k) ==> k in ids && ids[k] == coins[|coins| - 1].id)
  {
    StoredEntries(map[], coins, k);
  }

  // ---- search ----

  /** The value of the first key at or after `i`, in insertion order, that occurs in `text`. */
  function FirstMatch(l: Lookup, text: string, i: nat): (r: Option<string>)
    requires WellOrdered(l) && i <= |l.order|
    ensures r.None? <==> forall j :: i <= j < |l.order| ==> !Contains(text, l.order[j])
    ensures r.Some? ==> exists j :: i <= j < |l.order| && Contains(text, l.order[j])
                                   && r.value == l.ids[l.order[j]]
                                   && forall m :: i <= m < j ==> !Contains(text, l.order[m])
    decreases |l.order| - i
  {
    if i == |l.order| then None
    else if Contains(text, l.order[i]) then Some(l.ids[l.order[i]])
    else FirstMatch(l, text, i + 1)
  }

  // ---- the table as the agent holds it ----

  /** What the listing request produced: a status with the decoded body (None when it is not
      JSON), or an exception. */
  datatype Listing = Listed(status: int, body: Option<Value>) | Unreachable

  /** The coins the load loop stores before it ends or raises. */
  function ListedCoins(fetch: Listing): (coins: seq<Coin>)
  {
    if fetch.Listed? && fetch.status == 200 && fetch.body.Some? && fetch.body.value.Arr? then
      var items := fetch.body.value.items;
      Coins(items, ReadableFrom(items, 0))
    else []
  }

  /** Whether the load completes and sets the flag: a 200 whose body is a list of readable
      coins, or an empty dict or string (iterating either does nothing). Iterating any other
      body raises. */
  predicate LoadCompletes(fetch: Listing) {
    fetch.Listed? && fetch.status == 200 && fetch.body.Some?
    && match fetch.body.value {
         case Arr(items) => ReadableFrom(items, 0) == |items|
         case Obj(m) => |m| == 0
         case Str(s) => |s| == 0
         case _ => false
       }
  }

  class CoinTable {
    var order: seq<string>
    var ids: map<string, string>
    var loaded: bool

    function Contents(): Lookup
      reads this
    {
      Lookup(order, ids)
    }

    ghost predicate Valid()
      reads this
    {
      WellOrdered(Contents())
    }

    /** The table an agent starts with: empty and not loaded. */
    constructor()
      ensures Valid() && order == [] && ids == map[] && !loaded
    {
      order := [];
      ids := map[];
      loaded := false;
    }

    /** `self.coin_lookup[k] = v` */
    method Assign(k: string, v: string)
      modifies this
      requires Valid()
      ensures Valid() && Contents() == Put(old(Contents()), k, v) && loaded == old(loaded)
    {
      if k !in ids {
        order := order + [k];
      }
      ids := ids[k := v];
    }

    /** `_load_coin_lookup`. Once loaded it does nothing. Otherwise it stores each readable
        coin in turn; the first unreadable entry raises, which is caught, leaving what was
        stored and the flag unset. The flag is set only when the loop completes. */
    method Load(fetch: Listing)
      modifies this
      requires Valid()
      ensures Valid()
      ensures old(loaded) ==> Contents() == old(Contents()) && loaded
      ensures !old(loaded) ==> Contents() == AddCoins(old(Contents()), ListedCoins(fetch))
      ensures !old(loaded) ==> loaded == LoadCompletes(fetch)
    {
      if loaded {
        return;
      }
      if !(fetch.Listed? && fetch.status == 200 && fetch.body.Some?) {
        return;
      }
      var body := fetch.body.value;
      if body.Obj? || body.Str? {
        if (body.Obj? && |body.fields| == 0) || (body.Str? && |body.s| == 0) {
          loaded := true;
        }
        return;
      }
      if !body.Arr? {
        return;
      }
      var complete := StoreCoins(body.items);
      if complete {
        loaded := true;
      }
    }

    /** The body of that loop for one coin: its symbol, name and id, each mapped to its id. */
    method StoreCoin(coin: Coin)
      modifies this
      requires Valid()
      ensures Valid() && loaded == old(loaded) && Contents() == AddCoin(old(Contents()), coin)
    {
      Assign(coin.symbol, coin.id);
      Assign(coin.name, coin.id);
      Assign(coin.id, coin.id);
    }

    /** The loop of `_load_coin_lookup` over a listing: each readable coin is stored in turn,
        and the first unreadable entry stops it (the exception is caught by the caller's
        handler). `complete` tells whether every entry was stored. */
    method StoreCoins(items: seq<Value>) returns (complete: bool)
      modifies this
      requires Valid()
      ensures Valid() && loaded == old(loaded)
      ensures Contents() == AddCoins(old(Contents()), Coins(items, ReadableFrom(items, 0)))
      ensures complete <==> ReadableFrom(items, 0) == |items|
    {
      ghost var start := Contents();
      ghost var stored: seq<Coin> := [];
      var i := 0;
      while i < |items| && CoinOf(items[i]).Some?
        invariant 0 <= i <= |items| && |stored| == i
        invariant Valid() && loaded == old(loaded)
        invariant ReadAs(items, stored)
        invariant Contents() == AddCoins(start, stored)
      {
        var coin := CoinOf(items[i]).value;
        StoreCoin(coin);
        AddCoinsSnoc(start, stored, coin);
        ReadAsSnoc(items, stored, coin);
        stored := stored + [coin];
        i := i + 1;
      }
      CoinsAre(items, i, stored);
      complete := i == |items|;
    }

    /** `_find_crypto_symbol`: nothing before the table is loaded; otherwise the value of the
        first key, in insertion order, occurring in the lower-cased text. */
    method Find(text: string) returns (r: Option<string>)
      requires Valid()
      ensures !loaded ==> r.None?
      ensures loaded ==> r == FirstMatch(Contents(), ToLower(text), 0)
    {
      if !loaded {
        return None;
      }
      var lower := ToLower(text);
      var i := 0;
      while i < |order|
        invariant 0 <= i <= |order|
        invariant FirstMatch(Contents(), lower, 0) == FirstMatch(Contents(), lower, i)
      {
        if Contains(lower, order[i]) {
          return Some(ids[order[i]]);
        }
        i := i + 1;
      }
      return None;
    }
  }
}

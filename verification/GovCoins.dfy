/** Coins as multisets of denominations, and sums of them over the deposits of a proposal and of all proposals. */
module GovCoins {

  /** `sdk.Coins`: each denomination as often as its amount, so adding is `+` and `IsAllGTE` is `>=`. */
  type Coins = multiset<string>

  ghost function Sum<K(!new)>(m: map<K, Coins>): Coins
    decreases |m|
  {
    if m == map[] then multiset{}
    else
      var k :| k in m;
      m[k] + Sum(m - {k})
  }

  lemma DropSwap<K, V>(m: map<K, V>, j: K, k: K)
    ensures (m - {j}) - {k} == (m - {k}) - {j}
  {
  }

  /** Any entry may be taken out first. */
  lemma {:induction false} SumTakes<K(!new)>(m: map<K, Coins>, k: K)
    requires k in m
    ensures Sum(m) == m[k] + Sum(m - {k})
    decreases |m|
  {
    var j :| j in m && Sum(m) == m[j] + Sum(m - {j});
    if j != k {
      SumTakes(m - {j}, k);
      SumTakes(m - {k}, j);
      DropSwap(m, j, k);
    }
  }

  ghost function Sums(deposits: map<nat, map<string, Coins>>): map<nat, Coins> {
    map id {:trigger id in deposits} | id in deposits :: Sum(deposits[id])
  }

  /** What is held of all proposals together. */
  ghost function Total(deposits: map<nat, map<string, Coins>>): Coins { Sum(Sums(deposits)) }

  lemma SumsDrop(deposits: map<nat, map<string, Coins>>, id: nat)
    ensures Sums(deposits) - {id} == Sums(deposits - {id})
  {
    hide Sum;
  }

  lemma TotalTakes(deposits: map<nat, map<string, Coins>>, id: nat)
    requires id in deposits
    ensures Total(deposits) == Sum(deposits[id]) + Total(deposits - {id})
  {
    hide Sum;
    SumsDrop(deposits, id);
    SumTakes(Sums(deposits), id);
  }

  lemma TotalPut(deposits: map<nat, map<string, Coins>>, id: nat, held: map<string, Coins>)
    ensures Total(deposits[id := held]) == Sum(held) + Total(deposits - {id})
    ensures id !in deposits ==> deposits - {id} == deposits
  {
    TotalTakes(deposits[id := held], id);
    assert deposits[id := held] - {id} == deposits - {id};
  }

  /** A depositor's coins with more added. */
  function Added(held: map<string, Coins>, who: string, amount: Coins): map<string, Coins> {
    held[who := (if who in held then held[who] else multiset{}) + amount]
  }

  lemma SumAdded(held: map<string, Coins>, who: string, amount: Coins)
    ensures Sum(Added(held, who, amount)) == Sum(held) + amount
  {
    var rest := held - {who};
    SumTakes(Added(held, who, amount), who);
    assert Added(held, who, amount) - {who} == rest;
    if who in held {
      SumTakes(held, who);
    } else {
      assert rest == held;
    }
  }

  /** Adds up a depositor list. */
  method SumUp<K(!new, ==)>(m: map<K, Coins>) returns (total: Coins)
    ensures total == Sum(m)
  {
    total := multiset{};
    var todo := m;
    while todo != map[]
      invariant total + Sum(todo) == Sum(m)
      decreases |todo|
    {
      var k :| k in todo;
      SumTakes(todo, k);
      total := total + todo[k];
      todo := todo - {k};
    }
  }
}

/** Conservation of buffers: each one ever made is in exactly one place. */
module NetPools {
  import opened Bytes
  import opened Stream
  import opened Epoll
  import opened NetModel

  type Chains = map<Fd, seq<Buffer>>

  /** The numbers 0 to n-1, each once. */
  function Upto(n: nat): multiset<nat> {
    if n == 0 then multiset{} else Upto(n - 1) + multiset{n - 1}
  }

  lemma {:induction false} UptoOnce(n: nat, i: nat)
    ensures Upto(n)[i] == if i < n then 1 else 0
  {
    if n > 0 { UptoOnce(n - 1, i); }
  }

  lemma {:induction false} UptoSize(n: nat)
    ensures |Upto(n)| == n
  {
    if n > 0 { UptoSize(n - 1); }
  }

  /** The buffers in all chains, with multiplicity. */
  ghost function ChainIds(chains: Chains): multiset<nat>
    decreases |chains|
  {
    if forall fd :: fd !in chains then multiset{} else
      var fd :| fd in chains;
      assert |chains - {fd}| < |chains| by { RemoveOne(chains, fd); }
      multiset(Ids(chains[fd])) + ChainIds(chains - {fd})
  }

  lemma RemoveOne<K, V>(m: map<K, V>, k: K)
    requires k in m
    ensures |m - {k}| == |m| - 1
  {
  }

  /** Which chain is taken out first makes no difference. */
  lemma {:induction false} ChainIdsSplit(chains: Chains, fd: Fd)
    requires fd in chains
    ensures ChainIds(chains) == multiset(Ids(chains[fd])) + ChainIds(chains - {fd})
    decreases |chains|
  {
    var k :| k in chains && ChainIds(chains) == multiset(Ids(chains[k])) + ChainIds(chains - {k});
    if k != fd {
      RemoveOne(chains, k);
      RemoveOne(chains, fd);
      ChainIdsSplit(chains - {k}, fd);
      ChainIdsSplit(chains - {fd}, k);
      assert chains - {k} - {fd} == chains - {fd} - {k};
    }
  }

  lemma ChainIdsUpdate(chains: Chains, fd: Fd, chain: seq<Buffer>)
    ensures ChainIds(chains[fd := chain]) == multiset(Ids(chain)) + ChainIds(chains - {fd})
  {
    ChainIdsSplit(chains[fd := chain], fd);
    assert chains[fd := chain] - {fd} == chains - {fd};
  }

  /** Every buffer the pool has made is, once, in its free list, in one chain, or among `out`, the
      completed buffers a handler is just handing out. */
  ghost predicate PoolOk(p: Pool, chains: Chains, out: seq<nat>) {
    multiset(p.free) + ChainIds(chains) + multiset(out) == Upto(p.made)
  }

  // A pool gives out a buffer: the free list and the chains together gain the made ones only.
  lemma GetTakesOne(p: Pool, rest: multiset<nat>)
    requires multiset(p.free) + rest == Upto(p.made)
    ensures var (id, p') := GetFromPool(p); multiset(p'.free) + rest + multiset{id} == Upto(p'.made)
  {
    if p.free != [] {
      assert p.free == [p.free[0]] + p.free[1..];
    }
  }

  lemma GetKeepsPool(p: Pool, chains: Chains, out: seq<nat>, fd: Fd, b: Buffer)
    requires PoolOk(p, chains, out) && fd in chains && b.id == GetFromPool(p).0
    ensures PoolOk(GetFromPool(p).1, chains[fd := chains[fd] + [b]], out)
  {
    hide GetFromPool, Upto, ChainIds, Ids;
    GetTakesOne(p, ChainIds(chains) + multiset(out));
    ChainIdsSplit(chains, fd);
    ChainIdsUpdate(chains, fd, chains[fd] + [b]);
    IdsAppend(chains[fd], b);
    MoveOne(multiset(GetFromPool(p).1.free), multiset(Ids(chains[fd])), ChainIds(chains - {fd}), multiset(out), b.id);
  }

  lemma IdsAppend(chain: seq<Buffer>, b: Buffer)
    ensures multiset(Ids(chain + [b])) == multiset(Ids(chain)) + multiset{b.id}
  {
    assert Ids(chain + [b]) == Ids(chain) + [b.id];
  }

  lemma MoveOne(free: multiset<nat>, chain: multiset<nat>, others: multiset<nat>, out: multiset<nat>, id: nat)
    ensures free + ((chain + others) + out) + multiset{id} == free + ((chain + multiset{id}) + others) + out
  {
  }

  lemma CutKeepsPool(p: Pool, chains: Chains, out: seq<nat>, fd: Fd, done: seq<nat>, rest: seq<Buffer>)
    requires PoolOk(p, chains, out) && fd in chains && done + Ids(rest) == Ids(chains[fd])
    ensures PoolOk(p, chains[fd := rest], done + out)
  {
    ChainIdsSplit(chains, fd);
    ChainIdsUpdate(chains, fd, rest);
    assert multiset(done + Ids(rest)) == multiset(done) + multiset(Ids(rest));
  }

  lemma PutKeepsPool(p: Pool, chains: Chains, done: seq<nat>, out: seq<nat>)
    requires PoolOk(p, chains, done + out)
    ensures PoolOk(PutIntoPool(p, done), chains, out)
  {
  }

  lemma ClearKeepsPool(p: Pool, chains: Chains, fd: Fd)
    requires PoolOk(p, chains, []) && fd in chains
    ensures PoolOk(PutIntoPool(p, Ids(chains[fd])), chains - {fd}, [])
  {
    ChainIdsSplit(chains, fd);
  }

  lemma NewChainKeepsPool(p: Pool, chains: Chains, fd: Fd)
    requires PoolOk(p, chains, []) && fd !in chains
    ensures PoolOk(p, chains[fd := []], [])
  {
    ChainIdsUpdate(chains, fd, []);
    assert chains - {fd} == chains;
  }

  // ---------- what conservation means ----------

  lemma {:induction false} InSomeChain(chains: Chains, id: nat)
    ensures id in ChainIds(chains) <==> exists fd, i :: fd in chains && 0 <= i < |chains[fd]| && chains[fd][i].id == id
    decreases |chains|
  {
    if k :| k in chains {
      ChainIdsSplit(chains, k);
      RemoveOne(chains, k);
      InSomeChain(chains - {k}, id);
      if i :| 0 <= i < |chains[k]| && chains[k][i].id == id {
        assert Ids(chains[k])[i] == id;
      }
      if fd, i :| fd in chains && 0 <= i < |chains[fd]| && chains[fd][i].id == id {
        if fd != k {
          assert fd in chains - {k} && (chains - {k})[fd][i].id == id;
        } else {
          assert Ids(chains[k])[i] == id;
        }
      }
      if id in Ids(chains[k]) {
        var i :| 0 <= i < |chains[k]| && Ids(chains[k])[i] == id;
        assert chains[k][i].id == id;
      }
    }
  }

  ghost function TotalLength(chains: Chains): nat {
    |ChainIds(chains)|
  }

  /** Free buffers and buffers in chains add up to the number made. */
  lemma CountsAddUp(p: Pool, chains: Chains)
    requires PoolOk(p, chains, [])
    ensures |p.free| + TotalLength(chains) == p.made
  {
    UptoSize(p.made);
    assert |multiset(p.free) + ChainIds(chains) + multiset([])| == |p.free| + TotalLength(chains);
  }

  /** And every buffer made is in exactly one place, once. */
  lemma ExactlyOnePlace(p: Pool, chains: Chains, id: nat)
    requires PoolOk(p, chains, [])
    ensures multiset(p.free)[id] + ChainIds(chains)[id] == if id < p.made then 1 else 0
    ensures id < p.made ==> (id in p.free <==> id !in ChainIds(chains))
  {
    UptoOnce(p.made, id);
    var nobody: seq<nat> := [];
    assert multiset(nobody)[id] == 0;
    assert (multiset(p.free) + ChainIds(chains) + multiset(nobody))[id] == multiset(p.free)[id] + ChainIds(chains)[id];
    assert id in p.free <==> multiset(p.free)[id] > 0;
  }
}

/** A counting semaphore and who holds its permits. */
module Permits {

  /** The permits not handed out. */
  datatype Pool = Pool(capacity: nat, free: nat)

  function Take(pool: Pool): Pool
    requires pool.free > 0
  {
    pool.(free := pool.free - 1)
  }

  function Give(pool: Pool): Pool {
    pool.(free := pool.free + 1)
  }

  /** No permit is lost and none is invented. */
  predicate Conserved<T>(pool: Pool, holders: set<T>) {
    pool.free + |holders| == pool.capacity
  }

  /** The pool after one party started or stopped holding a permit. */
  predicate Moves(pool: Pool, pool': Pool, had: bool, has: bool) {
    if had == has then pool' == pool
    else if has then pool.free > 0 && pool' == Take(pool)
    else pool' == Give(pool)
  }

  lemma Moved<T>(pool: Pool, pool': Pool, holders: set<T>, holders': set<T>, t: T)
    requires Conserved(pool, holders) && Moves(pool, pool', t in holders, t in holders')
    requires holders' - {t} == holders - {t}
    ensures Conserved(pool', holders')
  {
    var rest := holders - {t};
    assert holders == if t in holders then rest + {t} else rest;
    assert holders' == if t in holders' then rest + {t} else rest;
  }

  lemma Smaller<T>(part: set<T>, whole: set<T>)
    requires part <= whole
    ensures |part| <= |whole|
    decreases whole
  {
    if part != {} {
      var t :| t in part;
      Smaller(part - {t}, whole - {t});
    }
  }
}

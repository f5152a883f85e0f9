/** The keys under which the client caches server state: tuples of strings,
    all under the "bitcoin" namespace, the per-user ones ending in the user id. */
module QueryKeys {

  type QueryKey = seq<string>

  const Namespace: string := "bitcoin"

  function All(): (k: QueryKey)
  {
    [Namespace]
  }

  function Price(): (k: QueryKey)
  {
    [Namespace, "price"]
  }

  function UserScore(userId: string): (k: QueryKey)
    ensures |k| == 3 && k[2] == userId
  {
    [Namespace, "userScore", userId]
  }

  function ActiveGuess(userId: string): (k: QueryKey)
    ensures |k| == 3 && k[2] == userId
  {
    [Namespace, "activeGuess", userId]
  }

  /** Every key lies under the namespace key. */
  lemma KeysUnderNamespace(u: string)
    ensures Price()[..1] == All() && UserScore(u)[..1] == All() && ActiveGuess(u)[..1] == All()
  {
  }

  /** Distinct users never share a key, and a score key is never a guess key or the price key. */
  lemma KeysAreDistinct(u: string, v: string)
    ensures UserScore(u) == UserScore(v) <==> u == v
    ensures ActiveGuess(u) == ActiveGuess(v) <==> u == v
    ensures UserScore(u) != ActiveGuess(v)
    ensures UserScore(u) != Price() && ActiveGuess(u) != Price()
  {
    assert UserScore(u)[1] != ActiveGuess(v)[1];
  }
}

/**
 * The reaction toggle of `handleReaction`: a message's reactions are a
 * dictionary from user id to one reaction symbol, and choosing a symbol
 * either removes the user's entry (it already held that symbol) or sets it.
 *
 * `Toggle` is the dictionary's new contents; `ChatRoom.HandleReaction`
 * applies it to the dictionary object in place.
 */
module Reactions {

  /** Whether user `u`'s entry in `m` is `s`. */
  predicate Holds<V(==)>(m: map<string, V>, u: string, s: V)
  {
    u in m && m[u] == s
  }

  /** The entries after user `u` chooses symbol `s`. */
  function Toggle<V(==)>(m: map<string, V>, u: string, s: V): (r: map<string, V>)
    ensures Holds(m, u, s) ==> u !in r
    ensures !Holds(m, u, s) ==> Holds(r, u, s)
    ensures forall k :: k != u ==> (k in r <==> k in m)
    ensures forall k :: k != u && k in m ==> r[k] == m[k]
  {
    if Holds(m, u, s) then m - {u} else m[u := s]
  }

  /** The toggle touches no entry but the acting user's: every other user's reaction is as before. */
  lemma ToggleOnlyTouchesActor<V>(m: map<string, V>, u: string, s: V)
    ensures m - {u} == Toggle(m, u, s) - {u}
  {
  }

  /** Toggles by two different users commute, whatever their symbols. */
  lemma ToggleCommutes<V>(m: map<string, V>, u1: string, s1: V, u2: string, s2: V)
    requires u1 != u2
    ensures Toggle(Toggle(m, u1, s1), u2, s2) == Toggle(Toggle(m, u2, s2), u1, s1)
  {
  }

  /**
   * Toggling the same symbol twice restores the entries exactly when the user
   * had no reaction or already had that symbol.
   */
  lemma ToggleTwiceRestoresIff<V>(m: map<string, V>, u: string, s: V)
    ensures Toggle(Toggle(m, u, s), u, s) == m <==> (u !in m || m[u] == s)
  {
  }

  /** When the user held a different symbol, two toggles leave the user with no reaction at all. */
  lemma ToggleTwiceFromOtherSymbol<V>(m: map<string, V>, u: string, s: V)
    requires u in m && m[u] != s
    ensures Toggle(Toggle(m, u, s), u, s) == m - {u}
  {
  }

  /** On a fresh empty dictionary a toggle always sets the user's symbol. */
  lemma ToggleOnEmpty<V>(u: string, s: V)
    ensures Toggle(map[], u, s) == map[u := s]
  {
  }
}

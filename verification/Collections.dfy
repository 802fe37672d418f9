// Facts about maps, sets and multisets that the modules share.
module Collections {

  ghost predicate Injective<X(!new), Y>(f: X -> Y) {
    forall x, y :: f(x) == f(y) ==> x == y
  }

  ghost function Image<X, Y>(f: X -> Y, xs: set<X>): (ys: set<Y>) {
    set x | x in xs :: f(x)
  }

  // Two maps, the first under the image of the second's keys, with related values.
  ghost predicate Linked<G(!new), K, E, P>(key: G -> K, m: map<K, E>, n: map<G, P>, rel: (G, E, P) -> bool) {
    && m.Keys == Image(key, n.Keys)
    && forall g :: g in n ==> rel(g, m[key(g)], n[g])
  }

  lemma LinkedRemove<G(!new), K, E, P>(key: G -> K, m: map<K, E>, n: map<G, P>, rel: (G, E, P) -> bool, g: G)
    requires Injective(key) && Linked(key, m, n, rel)
    ensures Linked(key, m - {key(g)}, n - {g}, rel)
  {
  }

  lemma LinkedReplace<G(!new), K, E, P>(key: G -> K, m: map<K, E>, n: map<G, P>, rel: (G, E, P) -> bool, g: G, e: E, p: P)
    requires Injective(key) && Linked(key, m, n, rel) && rel(g, e, p)
    ensures Linked(key, m[key(g) := e], n[g := p], rel)
  {
  }

  lemma LinkedFilter<G(!new), K, E, P>(key: G -> K, m: map<K, E>, n: map<G, P>, rel: (G, E, P) -> bool, keepE: E -> bool, keepP: P -> bool)
    requires Injective(key) && Linked(key, m, n, rel)
    requires forall g :: g in n ==> keepE(m[key(g)]) == keepP(n[g])
    ensures Linked(key, map k | k in m && keepE(m[k]) :: m[k], map g | g in n && keepP(n[g]) :: n[g], rel)
  {
  }

  lemma UpdateTwice<K, V>(m: map<K, V>, k: K, a: V, b: V)
    ensures m[k := a][k := b] == m[k := b]
    ensures m[k := a][k := b] - {k} == m - {k}
    ensures k in m && m[k] == a ==> m[k := a] == m
  {
  }

  lemma {:induction false} SubsetCard<T>(a: set<T>, b: set<T>)
    requires a <= b
    ensures |a| <= |b|
    ensures |a| == |b| ==> a == b
  {
    if a != {} {
      var x :| x in a;
      SubsetCard(a - {x}, b - {x});
    }
  }

  lemma Twice<T>(s: seq<T>, i: nat, j: nat)
    requires i < j < |s| && s[i] == s[j]
    ensures multiset(s)[s[i]] >= 2
  {
    assert s == s[..i] + [s[i]] + s[i + 1..j] + [s[j]] + s[j + 1..];
  }

  lemma Once<T>(s: seq<T>, a: nat)
    requires a < |s| && forall i :: 0 <= i < |s| && i != a ==> s[i] != s[a]
    ensures multiset(s)[s[a]] == 1
  {
    assert s == s[..a] + [s[a]] + s[a + 1..];
    assert s[a] !in s[..a] && s[a] !in s[a + 1..];
  }

  ghost predicate DistinctBy<T, K>(key: T -> K, s: seq<T>) {
    forall i, j :: 0 <= i < j < |s| ==> key(s[i]) != key(s[j])
  }

  // Distinctness survives reordering.
  lemma DistinctPermuted<T, K>(key: T -> K, s: seq<T>, t: seq<T>)
    requires multiset(s) == multiset(t) && DistinctBy(key, s)
    ensures DistinctBy(key, t)
  {
    forall i, j | 0 <= i < j < |t| ensures key(t[i]) != key(t[j]) {
      if key(t[i]) == key(t[j]) {
        assert t[i] in multiset(s) && t[j] in multiset(s);
        var a :| 0 <= a < |s| && s[a] == t[i];
        var b :| 0 <= b < |s| && s[b] == t[j];
        assert a == b;
        Twice(t, i, j);
        Once(s, a);
      }
    }
  }
}

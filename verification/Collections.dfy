/** Small facts about sequences, maps and multisets, kept apart so that each is proved once and
    in a small context. */
module Collections {

  lemma TakeTake<T>(s: seq<T>, n: nat, k: nat)
    requires k <= n <= |s|
    ensures s[..n][..k] == s[..k]
  {
  }

  lemma TakeAll<T>(s: seq<T>)
    ensures s[..|s|] == s
  {
  }

  lemma PutPut<K, V>(m: map<K, V>, k: K, a: V, b: V)
    ensures m[k := a][k := b] == m[k := b]
  {
  }

  lemma PutSame<K, V>(m: map<K, V>, k: K)
    requires k in m
    ensures m[k := m[k]] == m
  {
  }

  lemma Concat3<T>(a: seq<T>, x: T, b: seq<T>)
    ensures a + ([x] + b) == a + [x] + b
  {
  }

  lemma ConcatAssoc<T>(a: seq<T>, b: seq<T>, c: seq<T>)
    ensures a + (b + c) == a + b + c
  {
  }

  lemma AddBoth<T>(a: multiset<T>, b: multiset<T>, c: multiset<T>, t: multiset<T>, u: multiset<T>)
    requires a + t == b + u
    ensures (a + c) + t == (b + c) + u
  {
    assert (a + c) + t == (a + t) + c;
    assert (b + c) + u == (b + u) + c;
  }

  lemma TakeAway<T>(a: multiset<T>, b: multiset<T>, c: multiset<T>)
    requires a + c == b + multiset{}
    ensures a == b - c && c <= b
  {
    assert b == a + c;
  }

  /** The values of a map, each as often as it is a value. */
  ghost function ValuesOf<K, V>(m: map<K, V>): multiset<V>
    decreases |m|
  {
    if m == map[] then multiset{}
    else
      var k :| k in m;
      ValuesOf(m - {k}) + multiset{m[k]}
  }

  lemma RemoveTwice<K, V>(m: map<K, V>, j: K, k: K)
    ensures m - {j} - {k} == m - {k} - {j}
  {
  }

  lemma AddTwice<V>(a: multiset<V>, x: V, y: V)
    ensures a + multiset{x} + multiset{y} == a + multiset{y} + multiset{x}
  {
  }

  lemma {:induction false} ValuesWithout<K, V>(m: map<K, V>, k: K)
    requires k in m
    ensures ValuesOf(m) == ValuesOf(m - {k}) + multiset{m[k]}
    decreases |m|
  {
    var j :| j in m && ValuesOf(m) == ValuesOf(m - {j}) + multiset{m[j]};
    if j != k {
      hide ValuesOf;
      var rest := ValuesOf(m - {j} - {k});
      ValuesWithout(m - {j}, k);
      ValuesWithout(m - {k}, j);
      RemoveTwice(m, j, k);
      AddTwice(rest, m[j], m[k]);
    }
  }

  lemma ValuesWith<K, V>(m: map<K, V>, k: K, v: V)
    requires k !in m
    ensures ValuesOf(m[k := v]) == ValuesOf(m) + multiset{v}
  {
    ValuesWithout(m[k := v], k);
    assert m[k := v] - {k} == m;
  }

  /** One key less to do. */
  lemma OneKeyLess<K, V>(m: map<K, V>, todo: set<K>, k: K)
    requires k in todo && k in m
    ensures (m - todo)[k := m[k]] == m - (todo - {k})
    ensures |todo - {k}| == |todo| - 1
  {
  }

  lemma AllKeysToDo<K, V>(m: map<K, V>)
    ensures m - m.Keys == map[] && m - {} == m && |m.Keys| == |m|
  {
  }
}

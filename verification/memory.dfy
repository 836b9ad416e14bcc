/** The bounded memory of recently seen signal and update ids. */
module Memory {

  /** The age in nanoseconds beyond which an id is forgotten, and how many are remembered. */
  const WINDOW := 24 * 3600 * 1_000_000_000
  const MAX_IDS := 10000

  /** Lexicographic order on ids. */
  predicate Before(a: string, b: string)
    decreases |a|
  {
    if |b| == 0 then false
    else if |a| == 0 then true
    else a[0] < b[0] || (a[0] == b[0] && Before(a[1..], b[1..]))
  }

  lemma {:induction false} BeforeTotal(a: string, b: string)
    ensures a == b || Before(a, b) || Before(b, a)
    decreases |a|
  {
    if |a| > 0 && |b| > 0 && a[0] == b[0] {
      BeforeTotal(a[1..], b[1..]);
      if a[1..] == b[1..] { assert a == [a[0]] + a[1..] && b == [b[0]] + b[1..]; }
    }
  }

  lemma {:induction false} BeforeTransitive(a: string, b: string, c: string)
    requires Before(a, b) && Before(b, c)
    ensures Before(a, c)
    decreases |a|
  {
    if |a| > 0 && a[0] == b[0] && b[0] == c[0] { BeforeTransitive(a[1..], b[1..], c[1..]); }
  }

  lemma {:induction false} BeforeIrreflexive(a: string)
    ensures !Before(a, a)
    decreases |a|
  {
    if |a| > 0 { BeforeIrreflexive(a[1..]); }
  }

  /** Id a of m is older than id b: by arrival time, then by id. */
  predicate Older(m: map<string, int>, a: string, b: string)
    requires a in m && b in m
  {
    m[a] < m[b] || (m[a] == m[b] && Before(a, b))
  }

  predicate IsOldest(m: map<string, int>, k: string) {
    k in m && forall o | o in m && o != k :: Older(m, k, o)
  }

  lemma {:induction false} OldestExists(m: map<string, int>, ks: set<string>) returns (k: string)
    requires ks != {} && ks <= m.Keys
    ensures k in ks && forall o | o in ks && o != k :: Older(m, k, o)
    decreases |ks|
  {
    k :| k in ks;
    var rest := ks - {k};
    if rest != {} {
      var r := OldestExists(m, rest);
      BeforeTotal(k, r);
      if Older(m, r, k) {
        k := r;
      } else {
        forall o | o in ks && o != k ensures Older(m, k, o) {
          if o != r {
            assert o in rest && Older(m, r, o);
            if m[k] == m[r] && m[r] == m[o] { BeforeTransitive(k, r, o); }
          }
        }
      }
    }
  }

  lemma OldestUnique(m: map<string, int>, a: string, b: string)
    requires IsOldest(m, a) && IsOldest(m, b)
    ensures a == b
  {
    if a != b {
      assert Older(m, a, b) && Older(m, b, a);
      BeforeTransitive(a, b, a);
      BeforeIrreflexive(a);
    }
  }

  function Oldest(m: map<string, int>): (k: string)
    requires m != map[]
    ensures IsOldest(m, k)
  {
    assert exists k :: IsOldest(m, k) by {
      assert m.Keys != {};
      var k := OldestExists(m, m.Keys);
      assert IsOldest(m, k);
    }
    assert forall a, b | IsOldest(m, a) && IsOldest(m, b) :: a == b by {
      forall a, b | IsOldest(m, a) && IsOldest(m, b) ensures a == b { OldestUnique(m, a, b); }
    }
    var k :| k in m && IsOldest(m, k);
    k
  }

  /** m without its oldest ids beyond the cap: every id forgotten is older than every id kept. */
  function Capped(m: map<string, int>): (r: map<string, int>)
    ensures |r| <= MAX_IDS && r.Keys <= m.Keys
    ensures |m| <= MAX_IDS ==> r == m
    ensures |m| >= MAX_IDS ==> |r| == MAX_IDS
    ensures forall k | k in r :: r[k] == m[k]
    ensures forall a, b | a in m && a !in r && b in r :: Older(m, a, b)
    decreases |m|
  {
    if |m| <= MAX_IDS then m
    else
      var k := Oldest(m);
      var rest := m - {k};
      assert rest.Keys == m.Keys - {k};
      assert |rest| == |rest.Keys| == |m| - 1;
      var r := Capped(rest);
      assert forall a, b | a in m && a !in r && b in r :: Older(m, a, b) by {
        forall a, b | a in m && a !in r && b in r ensures Older(m, a, b) {
          if a == k { assert IsOldest(m, k) && b != k; } else { assert a in rest && Older(rest, a, b); }
        }
      }
      r
  }

  /** Records id at time at, then forgets what is out of the window and the oldest ids over the cap. */
  function Remember(m: map<string, int>, id: string, at: int): (r: map<string, int>)
    ensures |r| <= MAX_IDS
    ensures forall k | k in r :: (k == id && r[k] == at) || (k in m && k != id && r[k] == m[k] && at - r[k] <= WINDOW)
    ensures forall k | k in m && k != id && at - m[k] <= WINDOW && |m| < MAX_IDS :: k in r
    ensures |m| < MAX_IDS ==> id in r
  {
    var added := m[id := at];
    var recent := map k | k in added && !(at - added[k] > WINDOW) :: added[k];
    assert recent.Keys <= added.Keys;
    assert added.Keys == m.Keys + {id};
    CardinalityBound(recent.Keys, m.Keys + {id});
    Capped(recent)
  }

  /** The oldest id, by a loop over all of them. */
  method FindOldest(m: map<string, int>) returns (k: string)
    requires m != map[]
    ensures k == Oldest(m)
  {
    var rest := m.Keys;
    k :| k in rest;
    rest := rest - {k};
    while rest != {}
      invariant rest <= m.Keys && k in m && k !in rest
      invariant forall o | o in m && o !in rest && o != k :: Older(m, k, o)
    {
      var o :| o in rest;
      rest := rest - {o};
      BeforeTotal(k, o);
      if Older(m, o, k) {
        forall x | x in m && x !in rest && x != o ensures Older(m, o, x) {
          if x != k && m[o] == m[k] && m[k] == m[x] { BeforeTransitive(o, k, x); }
        }
        k := o;
      }
    }
    OldestUnique(m, k, Oldest(m));
  }

  /** Remembers an id in place: drops what is out of the window, then the oldest ids until the cap is met. */
  method RememberId(m: map<string, int>, id: string, at: int) returns (r: map<string, int>)
    ensures r == Remember(m, id, at)
  {
    r := m[id := at];
    var added, rest := r, r.Keys;
    while rest != {}
      invariant rest <= added.Keys && r == map k | k in added && (k in rest || !(at - added[k] > WINDOW)) :: added[k]
    {
      var k :| k in rest;
      rest := rest - {k};
      if at - added[k] > WINDOW {
        r := r - {k};
      }
    }
    assert r == map k | k in added && !(at - added[k] > WINDOW) :: added[k];
    ghost var recent := r;
    while |r| > MAX_IDS
      invariant Capped(r) == Capped(recent)
      decreases |r|
    {
      var k := FindOldest(r);
      assert (r - {k}).Keys == r.Keys - {k};
      r := r - {k};
    }
  }

  lemma CardinalityBound(a: set<string>, b: set<string>)
    requires a <= b
    ensures |a| <= |b|
  {
    assert b == a + (b - a);
  }
}

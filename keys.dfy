/** Object keys: prefixes, the byte-wise ascending order S3 lists keys in,
    and the one-level ("delimiter /") listing of a prefix. */
module Keys {

  predicate IsPrefix(p: string, k: string) {
    |p| <= |k| && k[..|p|] == p
  }

  /** Lexicographic order on keys, character by character. */
  predicate LexLe(a: string, b: string)
    decreases |a|
  {
    |a| == 0 || (|b| > 0 && (a[0] < b[0] || (a[0] == b[0] && LexLe(a[1..], b[1..]))))
  }

  predicate LexLt(a: string, b: string) {
    LexLe(a, b) && a != b
  }

  lemma {:induction false} LexLeReflexive(a: string)
    ensures LexLe(a, a)
    decreases |a|
  {
    if |a| > 0 {
      LexLeReflexive(a[1..]);
    }
  }

  lemma {:induction false} LexLeTotal(a: string, b: string)
    ensures LexLe(a, b) || LexLe(b, a)
    decreases |a|
  {
    if |a| > 0 && |b| > 0 && a[0] == b[0] {
      LexLeTotal(a[1..], b[1..]);
    }
  }

  lemma {:induction false} LexLeTransitive(a: string, b: string, c: string)
    requires LexLe(a, b) && LexLe(b, c)
    ensures LexLe(a, c)
    decreases |a|
  {
    if |a| > 0 && a[0] == b[0] && b[0] == c[0] {
      LexLeTransitive(a[1..], b[1..], c[1..]);
    }
  }

  lemma {:induction false} LexLeAntisymmetric(a: string, b: string)
    requires LexLe(a, b) && LexLe(b, a)
    ensures a == b
    decreases |a|
  {
    if |a| > 0 {
      LexLeAntisymmetric(a[1..], b[1..]);
      assert a == [a[0]] + a[1..];
      assert b == [b[0]] + b[1..];
    }
  }

  predicate IsLeast(m: string, s: set<string>) {
    forall y | y in s :: LexLe(m, y)
  }

  /** Every finite non-empty set of keys has a least key. */
  lemma {:induction false} LeastExists(s: set<string>)
    requires s != {}
    ensures exists m :: m in s && IsLeast(m, s)
    decreases s
  {
    var x :| x in s;
    if s == {x} {
      LexLeReflexive(x);
      assert IsLeast(x, s);
    } else {
      var t := s - {x};
      LeastExists(t);
      var m :| m in t && IsLeast(m, t);
      LexLeTotal(x, m);
      if LexLe(x, m) {
        forall y | y in s
          ensures LexLe(x, y)
        {
          if y == x {
            LexLeReflexive(x);
          } else {
            LexLeTransitive(x, m, y);
          }
        }
        assert IsLeast(x, s);
      } else {
        assert IsLeast(m, s);
      }
    }
  }

  /** A sequence of keys in strictly ascending order (so without repeats). */
  predicate StrictlySorted(r: seq<string>) {
    forall i, j | 0 <= i < j < |r| :: LexLt(r[i], r[j])
  }

  /** A set has at most one least key. */
  lemma LeastUnique(s: set<string>)
    ensures forall a, b | a in s && IsLeast(a, s) && b in s && IsLeast(b, s) :: a == b
  {
    forall a, b | a in s && IsLeast(a, s) && b in s && IsLeast(b, s)
      ensures a == b
    {
      LexLeAntisymmetric(a, b);
    }
  }

  /** The keys of a set in ascending order, as a listing returns them. */
  function Ordered(s: set<string>): (r: seq<string>)
    ensures StrictlySorted(r)
    ensures forall x :: x in r <==> x in s
    ensures |r| == |s|
    decreases s
  {
    if s == {} then []
    else
      LeastExists(s);
      LeastUnique(s);
      var m :| m in s && IsLeast(m, s);
      var rest := Ordered(s - {m});
      assert forall j | 0 <= j < |rest| :: LexLt(m, rest[j]) by {
        forall j | 0 <= j < |rest| ensures LexLt(m, rest[j]) {
          assert rest[j] in s - {m};
        }
      }
      [m] + rest
  }

  /** The index of the first '/' at or after `from`, or |k| if there is none. */
  function SlashFrom(k: string, from: nat): (i: nat)
    requires from <= |k|
    ensures from <= i <= |k|
    ensures i < |k| ==> k[i] == '/'
    ensures forall j | from <= j < i :: k[j] != '/'
    decreases |k| - from
  {
    if from == |k| then |k|
    else if k[from] == '/' then from
    else SlashFrom(k, from + 1)
  }

  /** What a one-level listing of `prefix` shows for the key `k`: the key
      itself when no '/' follows the prefix, otherwise the common prefix up to
      and including the first '/' after `prefix`. */
  function Entry(prefix: string, k: string): string
    requires IsPrefix(prefix, k)
  {
    var i := SlashFrom(k, |prefix|);
    if i < |k| then k[..i + 1] else k
  }

  /** The entries a one-level listing of `prefix` returns for a bucket
      holding `keys`. */
  function Listing(keys: set<string>, prefix: string): set<string> {
    set k | k in keys && IsPrefix(prefix, k) :: Entry(prefix, k)
  }

  /** An entry names an immediate child of the prefix. */
  predicate ImmediateChild(keys: set<string>, prefix: string, e: string) {
    && IsPrefix(prefix, e)
    && |prefix| < |e|
    && (|| (e in keys && SlashFrom(e, |prefix|) == |e|)
        || (SlashFrom(e, |prefix|) == |e| - 1
            && exists k :: k in keys && IsPrefix(e, k)))
  }

  lemma {:induction false} EntryIsImmediateChild(keys: set<string>, prefix: string, k: string)
    requires k in keys && IsPrefix(prefix, k) && k != prefix
    ensures ImmediateChild(keys, prefix, Entry(prefix, k))
  {
    var i := SlashFrom(k, |prefix|);
    if i < |k| {
      var e := k[..i + 1];
      SlashPrefix(k, |prefix|, i + 1);
      assert IsPrefix(e, k);
      assert e[..|prefix|] == k[..|prefix|];
    }
  }

  /** SlashFrom only looks at the characters before the first '/'. */
  lemma {:induction false} SlashPrefix(k: string, from: nat, n: nat)
    requires from <= |k| && SlashFrom(k, from) < n <= |k|
    ensures SlashFrom(k[..n], from) == SlashFrom(k, from)
    decreases |k| - from
  {
    if k[from] != '/' {
      SlashPrefix(k, from + 1, n);
    }
  }

  /** A listing holds exactly the immediate children of the prefix (and the
      prefix itself when it is a key). */
  lemma ListingIsOneLevel(keys: set<string>, prefix: string, e: string)
    requires e in Listing(keys, prefix)
    ensures e == prefix || ImmediateChild(keys, prefix, e)
  {
    var k :| k in keys && IsPrefix(prefix, k) && Entry(prefix, k) == e;
    if k != prefix {
      EntryIsImmediateChild(keys, prefix, k);
    } else {
      assert SlashFrom(k, |prefix|) == |k|;
    }
  }

  /** A listing is empty exactly when no key starts with the prefix. */
  lemma ListingEmpty(keys: set<string>, prefix: string)
    ensures Listing(keys, prefix) == {} <==> forall k | k in keys :: !IsPrefix(prefix, k)
  {
    if k :| k in keys && IsPrefix(prefix, k) {
      assert Entry(prefix, k) in Listing(keys, prefix);
    }
  }

  /** Every key under the prefix is represented in its listing. */
  lemma ListingCovers(keys: set<string>, prefix: string, k: string)
    requires k in keys && IsPrefix(prefix, k)
    ensures Entry(prefix, k) in Listing(keys, prefix)
    ensures k == prefix ==> prefix in Listing(keys, prefix)
  {
    if k == prefix {
      assert SlashFrom(k, |prefix|) == |k|;
    }
  }

  /** The prefix itself is listed exactly when it is a key: every longer
      key under it shows as a longer entry. */
  lemma ListedItself(keys: set<string>, prefix: string)
    ensures prefix in Listing(keys, prefix) <==> prefix in keys
  {
    if prefix in keys {
      ListingCovers(keys, prefix, prefix);
    }
    if prefix in Listing(keys, prefix) {
      var k :| k in keys && IsPrefix(prefix, k) && Entry(prefix, k) == prefix;
      assert |Entry(prefix, k)| > |prefix| || k == prefix;
    }
  }
}

/** The document-store behaviours the controllers lean on (identifiers, the
    natural order of a collection, `sort({key: -1})`) and the shape of a
    handler's reply. */
module Collections {

  /** Document identifiers. The store hands them out in increasing order, so
      the natural order of a collection is ascending identifier order. */
  type Id = nat

  datatype Option<+T> = None | Some(value: T)

  /** What a request handler answers: an HTTP status code and, on success, a body. */
  datatype Reply<+T> = Reply(status: int, body: Option<T>)

  /** Strictly increasing identifiers. */
  predicate Ascending(s: seq<Id>)
  {
    forall i, j :: 0 <= i < j < |s| ==> s[i] < s[j]
  }

  /** The tail of an ascending sequence is ascending and above its head. */
  lemma AscendingTail(s: seq<Id>)
    requires s != []
    ensures Ascending(s) ==> Ascending(s[1..]) && forall k :: k in s[1..] ==> s[0] < k
  {
    if Ascending(s) {
      forall i, j | 0 <= i < j < |s[1..]| ensures s[1..][i] < s[1..][j] {
        assert s[1..][i] == s[i + 1] && s[1..][j] == s[j + 1];
      }
    }
  }

  /** A head below every element of an ascending sequence keeps it ascending. */
  lemma AscendingCons(x: Id, t: seq<Id>)
    ensures Ascending(t) && (forall k :: k in t ==> x < k) ==> Ascending([x] + t)
  {
    if Ascending(t) && forall k :: k in t ==> x < k {
      var r := [x] + t;
      forall i, j | 0 <= i < j < |r| ensures r[i] < r[j] {
        assert r[j] == t[j - 1] && t[j - 1] in t;
        if i > 0 {
          assert r[i] == t[i - 1];
        }
      }
    }
  }

  /** The keys of `m` below `bound`, in ascending order: a collection scan in
      natural order when every key is below `bound`. */
  function KeysBelow<T>(m: map<Id, T>, bound: nat): (ks: seq<Id>)
    ensures forall i :: 0 <= i < |ks| ==> ks[i] in m && ks[i] < bound
    ensures forall k :: k in m && k < bound ==> k in ks
    ensures Ascending(ks)
  {
    if bound == 0 then []
    else KeysBelow(m, bound - 1) + (if bound - 1 in m then [bound - 1] else [])
  }

  /** Updating a key of a union is updating it in the right operand. */
  lemma UnionUpdate<T>(a: map<Id, T>, b: map<Id, T>, k: Id, v: T)
    ensures (a + b)[k := v] == a + b[k := v]
  {
  }

  /** A document together with its identifier, as a query returns it. */
  datatype Entry<T> = Entry(id: Id, doc: T)

  /** The documents of `m` in natural order. */
  function Entries<T>(m: map<Id, T>, bound: nat): (es: seq<Entry<T>>)
    ensures |es| == |KeysBelow(m, bound)|
    ensures forall i :: 0 <= i < |es| ==> es[i].id == KeysBelow(m, bound)[i] && es[i].doc == m[es[i].id]
  {
    var ks := KeysBelow(m, bound);
    seq(|ks|, i requires 0 <= i < |ks| => Entry(ks[i], m[ks[i]]))
  }

  /** The entries are ordered by `key`, largest first. */
  ghost predicate SortedDesc<T>(s: seq<T>, key: T -> int)
  {
    forall i, j :: 0 <= i < j < |s| ==> key(s[i]) >= key(s[j])
  }

  /** Inserts `x` before the first element whose key is not larger than its own. */
  function InsertDesc<T>(x: T, s: seq<T>, key: T -> int): (r: seq<T>)
  {
    if s == [] || key(x) >= key(s[0]) then [x] + s else [s[0]] + InsertDesc(x, s[1..], key)
  }

  /** `sort({key: -1})`: the same documents, largest key first. */
  function SortDesc<T>(s: seq<T>, key: T -> int): (r: seq<T>)
  {
    if s == [] then [] else InsertDesc(s[0], SortDesc(s[1..], key), key)
  }

  /** Insertion adds exactly `x` to the documents. */
  lemma {:induction false} InsertDescPermutes<T>(x: T, s: seq<T>, key: T -> int)
    ensures multiset(InsertDesc(x, s, key)) == multiset(s) + multiset{x}
  {
    if s != [] && key(x) < key(s[0]) {
      InsertDescPermutes(x, s[1..], key);
      assert s == [s[0]] + s[1..];
    }
  }

  /** An element placed in front of a sorted sequence whose keys it bounds
      keeps it sorted. */
  lemma PrependSorted<T>(y: T, t: seq<T>, key: T -> int)
    requires SortedDesc(t, key)
    requires forall j :: 0 <= j < |t| ==> key(y) >= key(t[j])
    ensures SortedDesc([y] + t, key)
  {
    var r := [y] + t;
    forall i, j | 0 <= i < j < |r| ensures key(r[i]) >= key(r[j]) {
      assert r[j] == t[j - 1];
      if i > 0 {
        assert r[i] == t[i - 1];
      }
    }
  }

  /** Insertion into a sorted sequence keeps it sorted. */
  lemma {:induction false} InsertDescSorted<T>(x: T, s: seq<T>, key: T -> int)
    requires SortedDesc(s, key)
    ensures SortedDesc(InsertDesc(x, s, key), key)
  {
    if s == [] || key(x) >= key(s[0]) {
      forall j | 0 <= j < |s| ensures key(x) >= key(s[j]) {
        if j > 0 {
          assert key(s[0]) >= key(s[j]);
        }
      }
      PrependSorted(x, s, key);
    } else {
      var t := InsertDesc(x, s[1..], key);
      InsertDescSorted(x, s[1..], key);
      InsertDescPermutes(x, s[1..], key);
      forall j | 0 <= j < |t| ensures key(s[0]) >= key(t[j]) {
        assert t[j] in multiset(s[1..]) + multiset{x};
        if t[j] != x {
          assert t[j] in s[1..];
          var k :| 0 <= k < |s[1..]| && s[1..][k] == t[j];
          assert s[1..][k] == s[k + 1];
        }
      }
      PrependSorted(s[0], t, key);
    }
  }

  /** The result holds the same documents (as a multiset) and is ordered. */
  lemma {:induction false} SortDescCorrect<T>(s: seq<T>, key: T -> int)
    ensures multiset(SortDesc(s, key)) == multiset(s)
    ensures SortedDesc(SortDesc(s, key), key)
  {
    if s != [] {
      SortDescCorrect(s[1..], key);
      InsertDescPermutes(s[0], SortDesc(s[1..], key), key);
      InsertDescSorted(s[0], SortDesc(s[1..], key), key);
      assert s == [s[0]] + s[1..];
    }
  }
}

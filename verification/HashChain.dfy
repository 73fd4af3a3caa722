/**
 An append-only log whose rows are linked by SHA-256 digests.

 The digest of a row covers its core fields and the digest of the row before it.
 SHA-256 over canonical JSON is modelled as an injective symbolic value: `Sha(core, previous)`
 is the digest of exactly that payload, and `Text` is any other text a stored row may hold.
 */
module HashChain {
  import opened Prelude

  datatype Digest<T> = Sha(core: T, previous: Option<Digest<T>>) | Text(text: string)

  datatype Row<T> = Row(ordinal: nat, core: T, previous: Option<Digest<T>>, hash: Digest<T>)

  function HeadHash<T>(rows: seq<Row<T>>): Option<Digest<T>> {
    if rows == [] then None else Some(rows[|rows| - 1].hash)
  }

  /** Row `i` names its predecessor's digest and carries the digest of its own payload. */
  predicate LinkedAt<T(==)>(rows: seq<Row<T>>, i: nat)
    requires i < |rows|
  {
    && rows[i].previous == HeadHash(rows[..i])
    && rows[i].hash == Sha(rows[i].core, rows[i].previous)
  }

  predicate Linked<T(==)>(rows: seq<Row<T>>) {
    forall i | 0 <= i < |rows| :: LinkedAt(rows, i)
  }

  function Cores<T>(rows: seq<Row<T>>): seq<T> {
    if rows == [] then [] else Cores(rows[..|rows| - 1]) + [rows[|rows| - 1].core]
  }

  lemma CoresLength<T>(rows: seq<Row<T>>)
    ensures |Cores(rows)| == |rows|
  {
  }

  function NextRow<T>(rows: seq<Row<T>>, ordinal: nat, core: T): Row<T> {
    Row(ordinal, core, HeadHash(rows), Sha(core, HeadHash(rows)))
  }

  /** A prefix of a linked log is linked. */
  lemma {:induction false} PrefixLinked<T>(rows: seq<Row<T>>, n: nat)
    requires n <= |rows| && Linked(rows)
    ensures Linked(rows[..n])
  {
    forall i | 0 <= i < n ensures LinkedAt(rows[..n], i) {
      assert LinkedAt(rows, i);
      assert rows[..n][..i] == rows[..i];
    }
  }

  /** A linked prefix and one more row that fits make a longer linked prefix. */
  lemma {:induction false} ExtendLinked<T>(rows: seq<Row<T>>, n: nat)
    requires n < |rows| && Linked(rows[..n]) && LinkedAt(rows, n)
    ensures Linked(rows[..n + 1])
  {
    var longer := rows[..n + 1];
    forall i | 0 <= i < |longer| ensures LinkedAt(longer, i) {
      assert longer[..i] == rows[..i];
      if i < n {
        assert LinkedAt(rows[..n], i);
        assert rows[..n][..i] == rows[..i];
      }
    }
  }

  /** A prefix with one more row is linked exactly when the prefix is and the row fits. */
  lemma {:induction false} LinkedUpTo<T>(rows: seq<Row<T>>, n: nat)
    requires n < |rows|
    ensures Linked(rows[..n + 1]) <==> Linked(rows[..n]) && LinkedAt(rows, n)
  {
    var longer := rows[..n + 1];
    if Linked(rows[..n]) && LinkedAt(rows, n) {
      ExtendLinked(rows, n);
    }
    if Linked(longer) {
      PrefixLinked(longer, n);
      assert longer[..n] == rows[..n];
      assert LinkedAt(longer, n);
    }
  }

  /** Appending a row that names the head keeps the log linked. */
  lemma {:induction false} AppendLinked<T>(rows: seq<Row<T>>, ordinal: nat, core: T)
    requires Linked(rows)
    ensures Linked(rows + [NextRow(rows, ordinal, core)])
  {
    var longer := rows + [NextRow(rows, ordinal, core)];
    forall i | 0 <= i < |longer| ensures LinkedAt(longer, i) {
      assert longer[..i] == rows[..i];
      if i < |rows| {
        assert LinkedAt(rows, i);
      } else {
        assert rows[..i] == rows;
      }
    }
  }

  /** Two linked logs with one head digest hold the same rows, event by event: the head commits to the whole history. */
  lemma {:induction false} SameHeadSameHistory<T>(a: seq<Row<T>>, b: seq<Row<T>>)
    requires Linked(a) && Linked(b)
    requires HeadHash(a) == HeadHash(b)
    ensures |a| == |b| && Cores(a) == Cores(b)
    ensures forall i | 0 <= i < |a| ::
              a[i].previous == b[i].previous && a[i].hash == b[i].hash && a[i].core == b[i].core
    decreases |a|
  {
    if a != [] {
      var m, n := |a| - 1, |b| - 1;
      assert LinkedAt(a, m) && LinkedAt(b, n);
      PrefixLinked(a, m);
      PrefixLinked(b, n);
      SameHeadSameHistory(a[..m], b[..n]);
      forall i | 0 <= i < |a|
        ensures a[i].previous == b[i].previous && a[i].hash == b[i].hash && a[i].core == b[i].core
      {
        if i < m {
          assert a[..m][i] == a[i] && b[..n][i] == b[i];
        }
      }
    }
  }
}

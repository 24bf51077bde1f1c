/**
 A directory whose changes reach the disk only at an fsync. The trail holds every content the directory had
 since its last fsync, oldest first. After power loss each name may show any of its contents on the trail.
 */
module CrashDirectory {
  datatype Directory<!N(==), V> = Directory(trail: seq<map<N, V>>)
  {
    ghost predicate Valid() {
      |trail| > 0
    }

    function Live(): map<N, V>
      requires |trail| > 0
    {
      trail[|trail| - 1]
    }

    function Changed(m: map<N, V>): Directory<N, V> {
      Directory(trail + [m])
    }

    function Synced(): Directory<N, V>
      requires |trail| > 0
    {
      Directory([Live()])
    }

    /** The name shows this value now, and will after power loss at this moment. */
    ghost predicate Bound(n: N, v: V) {
      forall i :: 0 <= i < |trail| ==> n in trail[i] && trail[i][n] == v
    }

    /** The name showed this value at some time since the last fsync. */
    ghost predicate Ever(n: N, v: V) {
      exists i :: 0 <= i < |trail| && n in trail[i] && trail[i][n] == v
    }
  }

  ghost predicate Agree<N, V>(a: map<N, V>, b: map<N, V>, n: N) {
    (n in a <==> n in b) && (n in a ==> a[n] == b[n])
  }

  /** This name shows one of its contents on the trail. */
  ghost predicate Recalled<N, V>(d: Directory<N, V>, m: map<N, V>, n: N) {
    exists i :: 0 <= i < |d.trail| && Agree(m, d.trail[i], n)
  }

  /** A content that power loss may leave behind. */
  ghost predicate Survivor<N(!new), V>(d: Directory<N, V>, m: map<N, V>) {
    forall n :: Recalled(d, m, n)
  }

  lemma SurvivorShows<N(!new), V>(d: Directory<N, V>, m: map<N, V>, n: N)
    requires Survivor(d, m)
    ensures n in m ==> d.Ever(n, m[n])
    ensures forall v :: d.Bound(n, v) ==> n in m && m[n] == v
  {
    assert Recalled(d, m, n);
    var i :| 0 <= i < |d.trail| && Agree(m, d.trail[i], n);
  }

  lemma LiveIsEver<N, V>(d: Directory<N, V>, n: N)
    requires d.Valid()
    ensures n in d.Live() ==> d.Ever(n, d.Live()[n])
    ensures forall v :: d.Bound(n, v) ==> n in d.Live() && d.Live()[n] == v && d.Ever(n, v)
  {
  }

  lemma ChangedShows<N, V>(d: Directory<N, V>, m: map<N, V>, n: N, v: V)
    ensures d.Changed(m).Bound(n, v) <==> d.Bound(n, v) && n in m && m[n] == v
    ensures d.Changed(m).Ever(n, v) <==> d.Ever(n, v) || (n in m && m[n] == v)
  {
    var e := d.Changed(m);
    assert forall i :: 0 <= i < |d.trail| ==> e.trail[i] == d.trail[i];
    assert e.trail[|d.trail|] == m;
  }
}

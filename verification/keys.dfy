/** Row keys as the services' SQLite tables hand them out. Both tables declare an
    `INTEGER PRIMARY KEY` without AUTOINCREMENT
    (backend/campaign-service/models/campaign.py:18,
    backend/notification-service/models/notification.py:7), so a new row gets one
    more than the largest key in use, and 1 in an empty table. The keys in use are
    kept in ascending order, which is also storage order. */
module Keys {

  predicate Increasing(s: seq<int>) {
    forall i, j :: 0 <= i < j < |s| ==> s[i] < s[j]
  }

  /** The key the next inserted row receives, given the keys in use in ascending order. */
  function NextKey(keys: seq<int>): (k: int)
    requires Increasing(keys)
    ensures forall i :: 0 <= i < |keys| ==> keys[i] < k
    ensures keys == [] ==> k == 1
    ensures (forall i :: 0 <= i < |keys| ==> 1 <= keys[i]) ==> 1 <= k
  {
    if keys == [] then 1 else keys[|keys| - 1] + 1
  }

  /** A key above every key in use keeps the keys ascending. */
  lemma IncreasingSnoc(s: seq<int>, x: int)
    requires Increasing(s) && forall i :: 0 <= i < |s| ==> s[i] < x
    ensures Increasing(s + [x])
  {
  }

  /** The next key is not in use by any row of a table whose keys are listed by `keys`. */
  lemma NextKeyFresh<V>(rows: map<int, V>, keys: seq<int>)
    requires Increasing(keys) && forall k :: k in rows ==> k in keys
    ensures NextKey(keys) !in rows
  {
  }

  /** The keys `s` without `x`, keeping the order of the rest. */
  function Without(s: seq<int>, x: int): (r: seq<int>)
    ensures forall y :: y in r <==> y in s && y != x
    ensures Increasing(s) ==> Increasing(r)
  {
    if s == [] then []
    else
      var rest := Without(s[1..], x);
      assert Increasing(s) ==> Increasing([s[0]] + rest) by {
        if Increasing(s) {
          assert Increasing(s[1..]);
          forall y | y in rest ensures s[0] < y {
            var j :| 0 <= j < |s[1..]| && s[1..][j] == y;
            assert s[j + 1] == y;
          }
          var t := [s[0]] + rest;
          forall i, j | 0 <= i < j < |t| ensures t[i] < t[j] {
            assert t[j] == rest[j - 1] && t[j] in rest;
            if i > 0 { assert t[i] == rest[i - 1]; }
          }
        }
      }
      if s[0] == x then rest else [s[0]] + rest
  }

  /** Removing a key that is not in use changes nothing. */
  lemma {:induction false} WithoutAbsent(s: seq<int>, x: int)
    requires x !in s
    ensures Without(s, x) == s
  {
    if s != [] {
      assert s[0] != x && x !in s[1..];
      WithoutAbsent(s[1..], x);
      assert s == [s[0]] + s[1..];
    }
  }

  /** Deleting the row with the largest key hands that key out again: the next key
      after the deletion is at most the deleted one. */
  lemma {:induction false} LargestKeyReused(keys: seq<int>)
    requires Increasing(keys) && keys != []
    requires forall i :: 0 <= i < |keys| ==> 1 <= keys[i]
    ensures NextKey(Without(keys, keys[|keys| - 1])) <= keys[|keys| - 1]
  {
    var last := keys[|keys| - 1];
    var r := Without(keys, last);
    if r != [] {
      var y := r[|r| - 1];
      assert y in r;
      var j :| 0 <= j < |keys| && keys[j] == y;
      assert j < |keys| - 1;
    }
  }

  /** Rows 1 and 2 stored, row 2 deleted: the next row is stored under key 2 again. */
  lemma KeyReusedAfterDelete()
    ensures NextKey(Without([1, 2], 2)) == 2
  {
    assert Without([2], 2) == [];
    assert Without([1, 2], 2) == [1];
  }
}

/** The three ways the dashboard rewrites a locally mirrored list of entities
    that carry an `id`: `filter(x => x.id !== id)`, `map(x => x.id === y.id ? y : x)`
    and `find(x => x.id === id)`. The entity's id is given as a function `id`. */
module Lists {
  import opened Types

  /** `s.filter(x => id(x) !== key)`. */
  function RemoveById<T>(s: seq<T>, id: T -> string, key: string): (r: seq<T>)
    ensures |r| <= |s|
    ensures forall i :: 0 <= i < |r| ==> r[i] in s && id(r[i]) != key
    ensures forall i :: 0 <= i < |s| && id(s[i]) != key ==> s[i] in r
    decreases |s|
  {
    if |s| == 0 then []
    else (if id(s[0]) == key then [] else [s[0]]) + RemoveById(s[1..], id, key)
  }

  /** Filtering distributes over concatenation: the survivors keep their order. */
  lemma {:induction false} RemoveByIdAppend<T>(a: seq<T>, b: seq<T>, id: T -> string, key: string)
    ensures RemoveById(a + b, id, key) == RemoveById(a, id, key) + RemoveById(b, id, key)
    decreases |a|
  {
    if |a| > 0 {
      assert (a + b)[0] == a[0];
      assert (a + b)[1..] == a[1..] + b;
      RemoveByIdAppend(a[1..], b, id, key);
    } else {
      assert a + b == b;
    }
  }

  /** A list in which no entry carries `key` is left as it is. */
  lemma {:induction false} RemoveByIdAbsent<T>(s: seq<T>, id: T -> string, key: string)
    requires forall i :: 0 <= i < |s| ==> id(s[i]) != key
    ensures RemoveById(s, id, key) == s
    decreases |s|
  {
    if |s| > 0 {
      RemoveByIdAbsent(s[1..], id, key);
      assert [s[0]] + s[1..] == s;
    }
  }

  /** Removing the same id twice removes nothing more. */
  lemma RemoveByIdIdempotent<T>(s: seq<T>, id: T -> string, key: string)
    ensures RemoveById(RemoveById(s, id, key), id, key) == RemoveById(s, id, key)
  {
    var r := RemoveById(s, id, key);
    RemoveByIdAbsent(r, id, key);
  }

  /** `s.map(x => id(x) === id(y) ? y : x)`. */
  function ReplaceById<T>(s: seq<T>, id: T -> string, y: T): (r: seq<T>)
    ensures |r| == |s|
    ensures forall i :: 0 <= i < |s| ==> r[i] == if id(s[i]) == id(y) then y else s[i]
    decreases |s|
  {
    if |s| == 0 then []
    else [if id(s[0]) == id(y) then y else s[0]] + ReplaceById(s[1..], id, y)
  }

  /** Replacing keeps the sequence of ids, so a later remove or replace by id
      sees the same entries. */
  lemma ReplaceByIdKeepsIds<T>(s: seq<T>, id: T -> string, y: T)
    ensures forall i :: 0 <= i < |s| ==> id(ReplaceById(s, id, y)[i]) == id(s[i])
  {
  }

  /** Replacing twice with the same entry is replacing once. */
  lemma ReplaceByIdIdempotent<T>(s: seq<T>, id: T -> string, y: T)
    ensures ReplaceById(ReplaceById(s, id, y), id, y) == ReplaceById(s, id, y)
  {
  }

  /** `s.find(x => id(x) === key)`: the first entry carrying `key`, if any. */
  function FirstById<T>(s: seq<T>, id: T -> string, key: string): (r: Option<T>)
    ensures r.None? <==> forall i :: 0 <= i < |s| ==> id(s[i]) != key
    ensures r.Some? ==> exists i :: 0 <= i < |s| && s[i] == r.value && id(s[i]) == key &&
                                    forall j :: 0 <= j < i ==> id(s[j]) != key
    decreases |s|
  {
    if |s| == 0 then None
    else if id(s[0]) == key then Some(s[0])
    else
      var r := FirstById(s[1..], id, key);
      assert r.Some? ==> exists i :: 1 <= i < |s| && s[i] == r.value && id(s[i]) == key &&
                                     forall j :: 0 <= j < i ==> id(s[j]) != key by {
        if r.Some? {
          var k :| 0 <= k < |s| - 1 && s[1..][k] == r.value && id(s[1..][k]) == key &&
                   forall j :: 0 <= j < k ==> id(s[1..][j]) != key;
          assert s[k + 1] == r.value;
          forall j | 0 <= j < k + 1 ensures id(s[j]) != key {
            if j > 0 { assert s[j] == s[1..][j - 1]; }
          }
        }
      }
      r
  }

  /** Searching a concatenation finds the first part's match when it has one,
      and otherwise the second part's. */
  lemma {:induction false} FirstByIdAppend<T>(a: seq<T>, b: seq<T>, id: T -> string, key: string)
    ensures FirstById(a + b, id, key) ==
              if FirstById(a, id, key).Some? then FirstById(a, id, key) else FirstById(b, id, key)
    decreases |a|
  {
    if |a| == 0 {
      assert a + b == b;
    } else if id(a[0]) != key {
      assert (a + b)[0] == a[0];
      assert (a + b)[1..] == a[1..] + b;
      FirstByIdAppend(a[1..], b, id, key);
    } else {
      assert (a + b)[0] == a[0];
    }
  }
}

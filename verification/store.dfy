/** Conventions shared by the record stores: optional values, and the id
    scheme `id = list.length + 1` used by every add handler. */
module Store {

  datatype Option<T> = None | Some(value: T)

  /** The id of the record the next add creates: one more than the list length. */
  function NextId<T>(s: seq<T>): (n: int)
    ensures n >= 1
  {
    |s| + 1
  }

  /** The ids are pairwise distinct and all lie in 1..|s|, so they are exactly
      the numbers 1..|s|. */
  ghost predicate DenseIds<T>(s: seq<T>, id: T -> int)
  {
    (forall i :: 0 <= i < |s| ==> 1 <= id(s[i]) <= |s|) &&
    (forall i, j :: 0 <= i < j < |s| ==> id(s[i]) != id(s[j]))
  }

  /** Ids that count up from 1 along the list are dense. */
  lemma CountingIdsAreDense<T>(s: seq<T>, id: T -> int)
    requires forall i :: 0 <= i < |s| ==> id(s[i]) == i + 1
    ensures DenseIds(s, id)
  {
  }

  /** With dense ids, the next id is held by no record. */
  lemma NextIdIsFresh<T>(s: seq<T>, id: T -> int)
    requires DenseIds(s, id)
    ensures forall i :: 0 <= i < |s| ==> id(s[i]) != NextId(s)
  {
  }

  /** Putting a record carrying the next id at the head keeps the ids dense. */
  lemma PrependKeepsDense<T>(s: seq<T>, x: T, id: T -> int)
    requires DenseIds(s, id)
    requires id(x) == NextId(s)
    ensures DenseIds([x] + s, id)
  {
    var t := [x] + s;
    forall i, j | 0 <= i < j < |t| ensures id(t[i]) != id(t[j]) {
      if i > 0 {
        assert t[i] == s[i - 1] && t[j] == s[j - 1];
      } else {
        assert t[j] == s[j - 1];
      }
    }
  }

  /** Putting a record carrying the next id at the tail keeps the ids dense. */
  lemma AppendKeepsDense<T>(s: seq<T>, x: T, id: T -> int)
    requires DenseIds(s, id)
    requires id(x) == NextId(s)
    ensures DenseIds(s + [x], id)
  {
    var t := s + [x];
    forall i, j | 0 <= i < j < |t| ensures id(t[i]) != id(t[j]) {
      assert t[i] == s[i];
    }
  }
}

/** Media request records and the id-based union that the request drain uses to
    merge pages (lodash `unionBy(acc, page, "id")`: the concatenation of both
    lists with every record dropped whose `id` was already seen earlier). */
module Requests {

  /** A request record as the request tracker returns it. Only `id` is read by
      the drain; the rest of the record is carried along untouched. */
  datatype MediaRequest = MediaRequest(id: int, payload: string)

  /** The ids of `s`, in order. */
  function Ids(s: seq<MediaRequest>): (ids: seq<int>)
    ensures |ids| == |s|
    ensures forall i :: 0 <= i < |s| ==> ids[i] == s[i].id
  {
    seq(|s|, i requires 0 <= i < |s| => s[i].id)
  }

  lemma IdsAppend(a: seq<MediaRequest>, b: seq<MediaRequest>)
    ensures Ids(a + b) == Ids(a) + Ids(b)
  {
    assert forall i :: 0 <= i < |a + b| ==> Ids(a + b)[i] == (Ids(a) + Ids(b))[i];
  }

  /** No two records of `s` share an id. */
  ghost predicate NoDupIds(s: seq<MediaRequest>) {
    forall i, j :: 0 <= i < j < |s| ==> s[i].id != s[j].id
  }

  /** The position of the first record of `s` that has id `id`. */
  function FirstIndex(s: seq<MediaRequest>, id: int): (i: nat)
    requires id in Ids(s)
    ensures i < |s| && s[i].id == id
    ensures forall j :: 0 <= j < i ==> s[j].id != id
  {
    if s[0].id == id then 0
    else
      assert id in Ids(s[1..]) by {
        var k :| 0 <= k < |s| && Ids(s)[k] == id;
        assert Ids(s[1..])[k - 1] == id;
      }
      1 + FirstIndex(s[1..], id)
  }

  /** Keep-first deduplication by id: each record is kept unless a record with
      the same id occurs before it. */
  function UniqById(s: seq<MediaRequest>): (u: seq<MediaRequest>)
    ensures |u| <= |s|
    decreases |s|
  {
    if s == [] then []
    else
      var kept := UniqById(s[..|s| - 1]);
      var last := s[|s| - 1];
      if last.id in Ids(kept) then kept else kept + [last]
  }

  /** lodash `unionBy(a, b, "id")`. */
  function UnionById(a: seq<MediaRequest>, b: seq<MediaRequest>): (u: seq<MediaRequest>)
    ensures NoDupIds(u)
    ensures forall x :: x in Ids(u) <==> x in Ids(a) || x in Ids(b)
    ensures forall r :: r in u ==> r in a || r in b
  {
    UniqHasNoDupIds(a + b);
    UniqKeepsIds(a + b);
    UniqIsFromInput(a + b);
    IdsAppend(a, b);
    UniqById(a + b)
  }

  /** Splits a non-empty sequence into its prefix and last element. */
  lemma SnocSplit(s: seq<MediaRequest>)
    requires s != []
    ensures s == s[..|s| - 1] + [s[|s| - 1]]
    ensures Ids(s) == Ids(s[..|s| - 1]) + [s[|s| - 1].id]
  {
    assert s == s[..|s| - 1] + [s[|s| - 1]];
    IdsAppend(s[..|s| - 1], [s[|s| - 1]]);
  }

  /** Deduplication keeps exactly the ids of its input. */
  lemma {:induction false} UniqKeepsIds(s: seq<MediaRequest>)
    ensures forall x :: x in Ids(UniqById(s)) <==> x in Ids(s)
    decreases |s|
  {
    if s != [] {
      var p, last := s[..|s| - 1], s[|s| - 1];
      UniqKeepsIds(p);
      SnocSplit(s);
      if last.id !in Ids(UniqById(p)) {
        IdsAppend(UniqById(p), [last]);
      }
    }
  }

  /** The deduplicated list never holds two records with the same id. */
  lemma {:induction false} UniqHasNoDupIds(s: seq<MediaRequest>)
    ensures NoDupIds(UniqById(s))
    decreases |s|
  {
    if s != [] {
      var p, last := s[..|s| - 1], s[|s| - 1];
      UniqHasNoDupIds(p);
      var kept := UniqById(p);
      if last.id !in Ids(kept) {
        forall i, j | 0 <= i < j < |kept + [last]|
          ensures (kept + [last])[i].id != (kept + [last])[j].id
        {
          if j == |kept| {
            assert Ids(kept)[i] == kept[i].id;
          }
        }
      }
    }
  }

  /** Every record of the deduplicated list is a record of the input. */
  lemma {:induction false} UniqIsFromInput(s: seq<MediaRequest>)
    ensures forall r :: r in UniqById(s) ==> r in s
    decreases |s|
  {
    if s != [] {
      var p, last := s[..|s| - 1], s[|s| - 1];
      UniqIsFromInput(p);
      SnocSplit(s);
    }
  }

  /** An id that occurs in a prefix has the same first position in the whole. */
  lemma FirstIndexOfInit(s: seq<MediaRequest>, x: int)
    requires s != [] && x in Ids(s[..|s| - 1])
    ensures x in Ids(s) && FirstIndex(s, x) == FirstIndex(s[..|s| - 1], x)
  {
    var p := s[..|s| - 1];
    var i1 := FirstIndex(p, x);
    assert s[i1] == p[i1] && Ids(s)[i1] == x;
    var i2 := FirstIndex(s, x);
    assert forall j :: 0 <= j < i1 ==> s[j] == p[j];
  }

  /** A last record whose id is new has its own position as first position. */
  lemma FirstIndexOfNewLast(s: seq<MediaRequest>)
    requires s != [] && s[|s| - 1].id !in Ids(s[..|s| - 1])
    ensures s[|s| - 1].id in Ids(s) && FirstIndex(s, s[|s| - 1].id) == |s| - 1
  {
    var x := s[|s| - 1].id;
    var p := s[..|s| - 1];
    SnocSplit(s);
  }

  /** The deduplicated list holds, for each of its ids, the FIRST record of
      the input that has that id. */
  lemma {:induction false} UniqKeepsFirst(s: seq<MediaRequest>)
    ensures forall k :: 0 <= k < |UniqById(s)| ==>
      UniqById(s)[k].id in Ids(s) && UniqById(s)[k] == s[FirstIndex(s, UniqById(s)[k].id)]
    decreases |s|
  {
    if s != [] {
      var p, last := s[..|s| - 1], s[|s| - 1];
      UniqKeepsFirst(p);
      var kept := UniqById(p);
      var u := UniqById(s);
      forall k | 0 <= k < |u| ensures u[k].id in Ids(s) && u[k] == s[FirstIndex(s, u[k].id)] {
        if k < |kept| {
          assert u[k] == kept[k];
          FirstIndexOfInit(s, kept[k].id);
          assert s[FirstIndex(p, kept[k].id)] == p[FirstIndex(p, kept[k].id)];
        } else {
          assert u == kept + [last] && u[k] == last;
          UniqKeepsIds(p);
          FirstIndexOfNewLast(s);
        }
      }
    }
  }

  /** The deduplicated list lists its records in the order their ids were
      first seen in the input. */
  lemma {:induction false} UniqKeepsOrder(s: seq<MediaRequest>)
    ensures forall k :: 0 <= k < |UniqById(s)| ==> UniqById(s)[k].id in Ids(s)
    ensures forall i, j :: 0 <= i < j < |UniqById(s)| ==>
      FirstIndex(s, UniqById(s)[i].id) < FirstIndex(s, UniqById(s)[j].id)
    decreases |s|
  {
    UniqKeepsFirst(s);
    if s != [] {
      var p, last := s[..|s| - 1], s[|s| - 1];
      UniqKeepsOrder(p);
      var kept := UniqById(p);
      var u := UniqById(s);
      assert u == kept || u == kept + [last];
      forall i, j | 0 <= i < j < |u|
        ensures FirstIndex(s, u[i].id) < FirstIndex(s, u[j].id)
      {
        assert u[i] == kept[i];
        FirstIndexOfInit(s, kept[i].id);
        if j < |kept| {
          assert u[j] == kept[j];
          FirstIndexOfInit(s, kept[j].id);
        } else {
          assert u[j] == last;
          UniqKeepsIds(p);
          FirstIndexOfNewLast(s);
        }
      }
    }
  }

  /** When every record has the same id, only the first record is kept. */
  lemma {:induction false} UniqOfOneId(s: seq<MediaRequest>, x: int)
    requires forall r :: r in s ==> r.id == x
    ensures UniqById(s) == if s == [] then [] else [s[0]]
    decreases |s|
  {
    if s != [] {
      var p := s[..|s| - 1];
      assert forall r :: r in p ==> r in s;
      UniqOfOneId(p, x);
      if p != [] {
        assert p[0] == s[0] && Ids([s[0]]) == [s[0].id];
      }
    }
  }

  /** A list whose ids are already distinct is left as it is. */
  lemma {:induction false} UniqOfDistinct(s: seq<MediaRequest>)
    requires NoDupIds(s)
    ensures UniqById(s) == s
    decreases |s|
  {
    if s != [] {
      var p, last := s[..|s| - 1], s[|s| - 1];
      assert NoDupIds(p) by {
        forall i, j | 0 <= i < j < |p| ensures p[i].id != p[j].id {
          assert p[i] == s[i] && p[j] == s[j];
        }
      }
      UniqOfDistinct(p);
      assert last.id !in Ids(p) by {
        forall i | 0 <= i < |p| ensures Ids(p)[i] != last.id {
          assert p[i] == s[i];
        }
      }
      SnocSplit(s);
    }
  }

  /** Deduplicating is idempotent. */
  lemma UniqIdempotent(s: seq<MediaRequest>)
    ensures UniqById(UniqById(s)) == UniqById(s)
  {
    UniqHasNoDupIds(s);
    UniqOfDistinct(UniqById(s));
  }

  /** Merging a new page into an already merged list gives the same result as
      deduplicating everything fetched so far in one go. This is why the
      page-by-page `unionBy` of the drain equals one dedup of all pages. */
  lemma {:induction false} UnionAbsorbs(a: seq<MediaRequest>, b: seq<MediaRequest>)
    ensures UniqById(UniqById(a) + b) == UniqById(a + b)
    decreases |b|
  {
    if b == [] {
      assert UniqById(a) + b == UniqById(a);
      assert a + b == a;
      UniqIdempotent(a);
    } else {
      var b', x := b[..|b| - 1], b[|b| - 1];
      UnionAbsorbs(a, b');
      var l, r := UniqById(a) + b, a + b;
      assert l[..|l| - 1] == UniqById(a) + b' && l[|l| - 1] == x;
      assert r[..|r| - 1] == a + b' && r[|r| - 1] == x;
      // Both dedups end by deciding on `x` against the same kept prefix.
      assert UniqById(l[..|l| - 1]) == UniqById(r[..|r| - 1]);
    }
  }
}

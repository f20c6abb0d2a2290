/**
 The genre list of the `/top-genres` handler.

 The handler walks the `items` of the upstream artist page in order, walks
 each artist's `genres` in order, and adds every tag to a JavaScript `Set`;
 the reply is `Array.from` of that set, i.e. the distinct tags in the order
 each was first added. This module models that computation over a sequence
 of tag lists (one list per artist), generic in the tag type, and proves
 what the reply is: duplicate free, exactly the tags mentioned, in
 first-seen order, growing monotonically with the artist list.
 */
module Genres {

  /** No value occurs twice. */
  predicate NoDuplicates<T(==,!new)>(s: seq<T>) {
    forall i, j :: 0 <= i < j < |s| ==> s[i] != s[j]
  }

  /** `tag` is listed by at least one artist. */
  predicate Mentioned<T(==,!new)>(artists: seq<seq<T>>, tag: T) {
    exists i :: 0 <= i < |artists| && tag in artists[i]
  }

  /** Number of tags across all artists, duplicates included. */
  function TotalTags<T>(artists: seq<seq<T>>): nat {
    if artists == [] then 0 else |artists[0]| + TotalTags(artists[1..])
  }

  /** The tags in the order the nested scan visits them: artist by artist,
      and each artist's tags in their own order. */
  function Flatten<T(==,!new)>(artists: seq<seq<T>>): (scan: seq<T>)
    ensures |scan| == TotalTags(artists)
    ensures forall tag :: tag in scan <==> Mentioned(artists, tag)
  {
    if artists == [] then []
    else
      var rest := Flatten(artists[1..]);
      assert forall tag :: Mentioned(artists[1..], tag) ==> Mentioned(artists, tag) by {
        forall tag | Mentioned(artists[1..], tag) ensures Mentioned(artists, tag) {
          var i :| 0 <= i < |artists[1..]| && tag in artists[1..][i];
          assert tag in artists[i + 1];
        }
      }
      assert forall tag :: Mentioned(artists, tag) ==> tag in artists[0] || Mentioned(artists[1..], tag) by {
        forall tag | Mentioned(artists, tag) && tag !in artists[0] ensures Mentioned(artists[1..], tag) {
          var i :| 0 <= i < |artists| && tag in artists[i];
          assert i != 0;
          assert tag in artists[1..][i - 1];
        }
      }
      artists[0] + rest
  }

  /** `Set.prototype.add` on an insertion-ordered set held as the sequence of
      its members: a member already present leaves the set as it is, a new
      one goes at the end. */
  function Add<T(==,!new)>(members: seq<T>, tag: T): (r: seq<T>)
    ensures tag in r
    ensures members <= r
    ensures forall g :: g in r <==> g in members || g == tag
    ensures |r| <= |members| + 1
    ensures NoDuplicates(members) ==> NoDuplicates(r)
  {
    if tag in members then members else members + [tag]
  }

  /** Adds `tags` one after another, in order, to the set `members`. */
  function AddAll<T(==,!new)>(members: seq<T>, tags: seq<T>): (r: seq<T>)
    ensures members <= r
    ensures forall g :: g in r <==> g in members || g in tags
    ensures |r| <= |members| + |tags|
    ensures NoDuplicates(members) ==> NoDuplicates(r)
    decreases |tags|
  {
    if tags == [] then members
    else AddAll(Add(members, tags[0]), tags[1..])
  }

  /** The `genres` array of the reply: the set filled by the nested scan,
      read back in insertion order. It holds no tag twice, holds exactly the
      tags some artist lists, and is no longer than the scan. */
  function Collect<T(==,!new)>(artists: seq<seq<T>>): (genres: seq<T>)
    ensures NoDuplicates(genres)
    ensures forall g :: g in genres ==> Mentioned(artists, g)
    ensures forall g :: Mentioned(artists, g) ==> g in genres
    ensures |genres| <= TotalTags(artists)
  {
    AddAll([], Flatten(artists))
  }

  /** `seen` holds exactly the values listed in `members`. */
  ghost predicate Mirrors<T(!new)>(seen: set<T>, members: seq<T>) {
    forall g :: g in seen <==> g in members
  }

  /** Adding the first `j + 1` tags is adding the first `j`, then tag `j`. */
  lemma AddAllNext<T(!new)>(members: seq<T>, tags: seq<T>, j: nat)
    requires j < |tags|
    ensures AddAll(members, tags[..j + 1]) == Add(AddAll(members, tags[..j]), tags[j])
  {
    assert tags[..j + 1] == tags[..j] + [tags[j]];
    AddAllSnoc(members, tags[..j], tags[j]);
  }

  /** A new member enters both views of the set. */
  lemma MirrorsGrow<T(!new)>(seen: set<T>, members: seq<T>, tag: T)
    requires Mirrors(seen, members)
    ensures Mirrors(seen + {tag}, members + [tag])
  {
  }

  /** Adds one artist's tags, in order, to the set. The set is kept, as a
      JavaScript `Set` keeps it, both as a membership set and as the list of
      members in insertion order. */
  method AddTags<T(==,!new)>(members: seq<T>, seen: set<T>, tags: seq<T>)
      returns (members': seq<T>, seen': set<T>)
    requires Mirrors(seen, members)
    ensures members' == AddAll(members, tags)
    ensures Mirrors(seen', members')
  {
    members', seen' := members, seen;
    var j := 0;
    while j < |tags|
      invariant 0 <= j <= |tags|
      invariant members' == AddAll(members, tags[..j])
      invariant Mirrors(seen', members')
    {
      var tag := tags[j];
      AddAllNext(members, tags, j);
      assert tag in seen' <==> tag in members';
      if tag !in seen' {
        MirrorsGrow(seen', members', tag);
        seen' := seen' + {tag};
        members' := members' + [tag];
      }
      j := j + 1;
    }
    assert tags[..j] == tags;
  }

  /** The `/top-genres` scan: every artist in turn adds its tags to one
      initially empty set, which is then read back in insertion order. */
  method CollectGenres<T(==,!new)>(artists: seq<seq<T>>) returns (genres: seq<T>)
    ensures genres == Collect(artists)
  {
    var seen: set<T> := {};
    genres := [];
    var i := 0;
    while i < |artists|
      invariant 0 <= i <= |artists|
      invariant genres == Collect(artists[..i])
      invariant Mirrors(seen, genres)
    {
      assert artists[..i + 1] == artists[..i] + [artists[i]];
      CollectSnoc(artists[..i], artists[i]);
      genres, seen := AddTags(genres, seen, artists[i]);
      i := i + 1;
    }
    assert artists[..i] == artists;
  }

  /** Position of the first occurrence of `x` in `s`. */
  function FirstIndex<T(==,!new)>(s: seq<T>, x: T): (i: nat)
    requires x in s
    ensures i < |s| && s[i] == x && x !in s[..i]
  {
    if s[0] == x then 0
    else
      var k := FirstIndex(s[1..], x);
      assert s[..k + 1] == [s[0]] + s[1..][..k];
      k + 1
  }

  /** `r` lists the distinct values of `scan` in the order of their first
      occurrence: a declarative description of an insertion-ordered set
      filled from `scan`. */
  ghost predicate FirstSeenOrder<T(!new)>(scan: seq<T>, r: seq<T>) {
    && NoDuplicates(r)
    && (forall x :: x in r <==> x in scan)
    && (forall i, j :: 0 <= i < j < |r| ==> FirstIndex(scan, r[i]) < FirstIndex(scan, r[j]))
  }

  // ---------------------------------------------------------------------
  // Algebra of the scan
  // ---------------------------------------------------------------------

  /** Scanning two artist lists one after the other visits the tags of the
      first list, then those of the second. */
  lemma {:induction false} FlattenAppend<T(!new)>(a: seq<seq<T>>, b: seq<seq<T>>)
    ensures Flatten(a + b) == Flatten(a) + Flatten(b)
    decreases |a|
  {
    if a == [] {
      assert a + b == b;
    } else {
      assert (a + b)[1..] == a[1..] + b;
      FlattenAppend(a[1..], b);
    }
  }

  /** Adding a concatenation is adding one part, then the other. */
  lemma {:induction false} AddAllAppend<T(!new)>(members: seq<T>, xs: seq<T>, ys: seq<T>)
    ensures AddAll(members, xs + ys) == AddAll(AddAll(members, xs), ys)
    decreases |xs|
  {
    if xs == [] {
      assert xs + ys == ys;
    } else {
      assert (xs + ys)[1..] == xs[1..] + ys;
      AddAllAppend(Add(members, xs[0]), xs[1..], ys);
    }
  }

  /** Adding one more tag at the end of the scan is one more `Set.add`. */
  lemma AddAllSnoc<T(!new)>(members: seq<T>, xs: seq<T>, x: T)
    ensures AddAll(members, xs + [x]) == Add(AddAll(members, xs), x)
  {
    AddAllAppend(members, xs, [x]);
  }

  /** A single artist's scan is that artist's tags. */
  lemma FlattenSingle<T(!new)>(tags: seq<T>)
    ensures Flatten([tags]) == tags
  {
  }

  /** One more artist at the end of the list adds that artist's tags, in
      order, to the set built so far. */
  lemma CollectSnoc<T(!new)>(artists: seq<seq<T>>, tags: seq<T>)
    ensures Collect(artists + [tags]) == AddAll(Collect(artists), tags)
  {
    FlattenAppend(artists, [tags]);
    FlattenSingle(tags);
    AddAllAppend([], Flatten(artists), tags);
  }

  // ---------------------------------------------------------------------
  // Properties of the reply
  // ---------------------------------------------------------------------

  /** Prefix monotonicity: the reply for the first `k` artists is a prefix of
      the reply for all of them; later artists only append new tags. */
  lemma PrefixMonotone<T(!new)>(artists: seq<seq<T>>, k: nat)
    requires k <= |artists|
    ensures Collect(artists[..k]) <= Collect(artists)
  {
    assert artists == artists[..k] + artists[k..];
    FlattenAppend(artists[..k], artists[k..]);
    AddAllAppend([], Flatten(artists[..k]), Flatten(artists[k..]));
  }

  /** An artist without genres, wherever it stands, changes nothing. */
  lemma EmptyArtistChangesNothing<T(!new)>(artists: seq<seq<T>>, k: nat)
    requires k <= |artists|
    ensures Collect(artists[..k] + [[]] + artists[k..]) == Collect(artists)
  {
    FlattenAppend(artists[..k] + [[]], artists[k..]);
    FlattenAppend(artists[..k], [[]]);
    var none: seq<seq<T>> := [[]];
    assert Flatten(none) == [] + Flatten(none[1..]);
    assert Flatten(artists[..k]) + [] == Flatten(artists[..k]);
    FlattenAppend(artists[..k], artists[k..]);
    assert artists[..k] + artists[k..] == artists;
  }

  /** An empty artist list yields an empty genre list. */
  lemma NoArtistsNoGenres<T(!new)>()
    ensures Collect<T>([]) == []
  {
  }

  /** The first occurrence of a value that occurs in `p` is the same in
      `p + q`. */
  lemma {:induction false} FirstIndexPrefix<T(!new)>(p: seq<T>, q: seq<T>, x: T)
    requires x in p
    ensures x in p + q && FirstIndex(p + q, x) == FirstIndex(p, x)
    decreases |p|
  {
    if p[0] != x {
      assert (p + q)[1..] == p[1..] + q;
      FirstIndexPrefix(p[1..], q, x);
    }
  }

  /** A value first seen at the very end of the scan. */
  lemma FirstIndexLast<T(!new)>(p: seq<T>, x: T)
    requires x !in p
    ensures x in p + [x] && FirstIndex(p + [x], x) == |p|
  {
  }

  /** First-seen positions in `p + [x]` agree with those in `p` on the
      values of `p`. */
  lemma FirstIndexSnoc<T(!new)>(p: seq<T>, x: T)
    ensures forall y :: y in p ==> y in p + [x] && FirstIndex(p + [x], y) == FirstIndex(p, y)
  {
    forall y | y in p ensures y in p + [x] && FirstIndex(p + [x], y) == FirstIndex(p, y) {
      FirstIndexPrefix(p, [x], y);
    }
  }

  /** A value seen again keeps a first-seen ordering of the scan a
      first-seen ordering of the longer scan. */
  lemma ExtendRepeat<T(!new)>(p: seq<T>, x: T, d: seq<T>)
    requires x in p
    requires FirstSeenOrder(p, d)
    ensures FirstSeenOrder(p + [x], d)
  {
    FirstIndexSnoc(p, x);
  }

  /** A value seen for the first time goes at the end of a first-seen
      ordering. */
  lemma ExtendFresh<T(!new)>(p: seq<T>, x: T, d: seq<T>)
    requires x !in p
    requires FirstSeenOrder(p, d)
    ensures FirstSeenOrder(p + [x], d + [x])
  {
    FirstIndexSnoc(p, x);
    FirstIndexLast(p, x);
    var r := d + [x];
    forall i, j | 0 <= i < j < |r|
      ensures FirstIndex(p + [x], r[i]) < FirstIndex(p + [x], r[j])
    {
      assert r[i] == d[i];
      if j < |d| {
        assert r[j] == d[j];
      } else {
        assert r[j] == x;
      }
    }
  }

  /** The reply lists the distinct tags of the scan in first-seen order. */
  lemma {:induction false} AddAllFirstSeen<T(!new)>(scan: seq<T>)
    ensures FirstSeenOrder(scan, AddAll([], scan))
    decreases |scan|
  {
    if scan != [] {
      var p := scan[..|scan| - 1];
      var x := scan[|scan| - 1];
      assert scan == p + [x];
      AddAllFirstSeen(p);
      AddAllSnoc([], p, x);
      if x in p {
        ExtendRepeat(p, x, AddAll([], p));
      } else {
        ExtendFresh(p, x, AddAll([], p));
      }
    }
  }

  /** A value seen again at the end of the scan changes no first-seen
      ordering. */
  lemma FirstSeenOrderRepeat<T(!new)>(p: seq<T>, x: T, r: seq<T>)
    requires x in p
    requires FirstSeenOrder(p + [x], r)
    ensures FirstSeenOrder(p, r)
  {
    FirstIndexSnoc(p, x);
    forall i, j | 0 <= i < j < |r| ensures FirstIndex(p, r[i]) < FirstIndex(p, r[j]) {
      assert r[i] in p + [x] && r[j] in p + [x];
    }
  }

  /** In a first-seen ordering the last value is the one seen latest. */
  lemma LastSeenLatest<T(!new)>(scan: seq<T>, r: seq<T>)
    requires FirstSeenOrder(scan, r)
    requires r != []
    ensures forall m :: 0 <= m < |r| ==> FirstIndex(scan, r[m]) <= FirstIndex(scan, r[|r| - 1])
  {
  }

  /** A value first seen at the end of the scan comes last in any first-seen
      ordering of it. */
  lemma FirstSeenOrderFreshLast<T(!new)>(p: seq<T>, x: T, r: seq<T>)
    requires x !in p
    requires FirstSeenOrder(p + [x], r)
    ensures r != [] && r[|r| - 1] == x
  {
    FirstIndexLast(p, x);
    assert x in p + [x];
    var k :| 0 <= k < |r| && r[k] == x;
    LastSeenLatest(p + [x], r);
    var i := FirstIndex(p + [x], r[|r| - 1]);
    assert |p| <= i < |p| + 1;
  }

  /** Dropping that last value leaves a first-seen ordering of the shorter
      scan. */
  lemma FirstSeenOrderFreshDrop<T(!new)>(p: seq<T>, x: T, r: seq<T>)
    requires x !in p
    requires FirstSeenOrder(p + [x], r)
    requires r != [] && r[|r| - 1] == x
    ensures FirstSeenOrder(p, r[..|r| - 1])
  {
    FirstIndexSnoc(p, x);
    var r' := r[..|r| - 1];
    assert r == r' + [x];
    forall y ensures y in r' <==> y in p {
      assert y in r <==> y in p + [x];
    }
    forall i, j | 0 <= i < j < |r'| ensures FirstIndex(p, r'[i]) < FirstIndex(p, r'[j]) {
      assert r'[i] == r[i] && r'[j] == r[j];
      assert r[i] in p + [x] && r[j] in p + [x];
    }
  }

  /** A sequence without members is empty. */
  lemma NothingListed<T>(r: seq<T>)
    ensures (forall y :: y !in r) ==> r == []
  {
    assert r == [] || r[0] in r;
  }

  /** Dropping a last scanned value that was seen before keeps a first-seen
      ordering one of the shorter scan. */
  lemma DropRepeat<T(!new)>(scan: seq<T>, r: seq<T>)
    requires scan != [] && scan[|scan| - 1] in scan[..|scan| - 1]
    requires FirstSeenOrder(scan, r)
    ensures FirstSeenOrder(scan[..|scan| - 1], r)
  {
    assert scan == scan[..|scan| - 1] + [scan[|scan| - 1]];
    FirstSeenOrderRepeat(scan[..|scan| - 1], scan[|scan| - 1], r);
  }

  /** Dropping a last scanned value that is new drops it from the end of a
      first-seen ordering, leaving one of the shorter scan. */
  lemma DropFresh<T(!new)>(scan: seq<T>, r: seq<T>)
    requires scan != [] && scan[|scan| - 1] !in scan[..|scan| - 1]
    requires FirstSeenOrder(scan, r)
    ensures r != [] && r == r[..|r| - 1] + [scan[|scan| - 1]]
    ensures FirstSeenOrder(scan[..|scan| - 1], r[..|r| - 1])
  {
    var p, x := scan[..|scan| - 1], scan[|scan| - 1];
    assert scan == p + [x];
    FirstSeenOrderFreshLast(p, x, r);
    FirstSeenOrderFreshDrop(p, x, r);
    assert r == r[..|r| - 1] + [r[|r| - 1]];
  }

  /** The reply for a scan, from the reply for all but its last value. */
  lemma ReplyStep<T(!new)>(scan: seq<T>)
    requires scan != []
    ensures var p, x := scan[..|scan| - 1], scan[|scan| - 1];
      AddAll([], scan) == if x in p then AddAll([], p) else AddAll([], p) + [x]
  {
    assert scan == scan[..|scan| - 1] + [scan[|scan| - 1]];
    AddAllSnoc([], scan[..|scan| - 1], scan[|scan| - 1]);
  }

  /** Every order-preserving de-duplication of a scan is the reply: a
      duplicate-free sequence holding exactly the scanned values in
      first-seen order can only be `AddAll([], scan)`. */
  lemma {:induction false} FirstSeenOrderUnique<T(!new)>(scan: seq<T>, r: seq<T>)
    requires FirstSeenOrder(scan, r)
    ensures r == AddAll([], scan)
    decreases |scan|
  {
    if scan == [] {
      NothingListed(r);
    } else if scan[|scan| - 1] in scan[..|scan| - 1] {
      DropRepeat(scan, r);
      FirstSeenOrderUnique(scan[..|scan| - 1], r);
      ReplyStep(scan);
    } else {
      DropFresh(scan, r);
      FirstSeenOrderUnique(scan[..|scan| - 1], r[..|r| - 1]);
      ReplyStep(scan);
    }
  }

  /** The reply for an artist list is the first-seen ordering of its scan:
      both directions, so `FirstSeenOrder` characterises it completely. */
  lemma CollectIsFirstSeenOrder<T(!new)>(artists: seq<seq<T>>, r: seq<T>)
    ensures r == Collect(artists) <==> FirstSeenOrder(Flatten(artists), r)
  {
    AddAllFirstSeen(Flatten(artists));
    if FirstSeenOrder(Flatten(artists), r) {
      FirstSeenOrderUnique(Flatten(artists), r);
    }
  }

  /** The two-artist case: `pop` is reported once, before `rock`. */
  lemma PopRockExample()
    ensures Collect([["pop", "rock"], ["pop"]]) == ["pop", "rock"]
  {
    // The scan is pop, rock, pop; the second pop is already a member.
    FlattenSingle(["pop"]);
    assert Flatten([["pop", "rock"], ["pop"]]) == ["pop", "rock"] + ["pop"];
    assert Add(Add([], "pop"), "rock") == ["pop", "rock"];
    AddAllSnoc([], ["pop", "rock"], "pop");
    AddAllSnoc([], ["pop"], "rock");
    AddAllSnoc([], [], "pop");
  }
}

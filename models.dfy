/** The persisted entities: a tracked group and the posts fetched from its wall. */
module Models {

  /** The parse timestamp of a group; `Zero` is Go's zero `time.Time`. */
  datatype Timestamp = Zero | At(unixMilli: int)

  /** A tracked community. `domain` is unique across the group table. */
  datatype Group = Group(id: nat, domain: string, subscribers: int, parsedAt: Timestamp)

  /** An engagement snapshot of one wall post, owned by the group `groupId`. */
  datatype Post = Post(
    id: nat,
    groupId: nat,
    date: string,
    views: int,
    reactions: int,
    likes: int,
    text: string,
    comments: int)

  /** The posts of group `gid`, in table order (the query `group_id = gid`). */
  function PostsOf(ps: seq<Post>, gid: nat): (r: seq<Post>)
    ensures |r| <= |ps|
  {
    if ps == [] then []
    else (if ps[0].groupId == gid then [ps[0]] else []) + PostsOf(ps[1..], gid)
  }

  /** The posts that survive deleting group `gid`'s posts, in table order. */
  function PostsNotOf(ps: seq<Post>, gid: nat): (r: seq<Post>)
    ensures |r| <= |ps|
  {
    if ps == [] then []
    else (if ps[0].groupId != gid then [ps[0]] else []) + PostsNotOf(ps[1..], gid)
  }

  /** A post is selected for `gid` exactly when the table holds it and it belongs to
      `gid`; deleting `gid`'s posts keeps exactly the others. */
  lemma {:induction false} PostsOfMembers(ps: seq<Post>, gid: nat, p: Post)
    ensures p in PostsOf(ps, gid) <==> p in ps && p.groupId == gid
    ensures p in PostsNotOf(ps, gid) <==> p in ps && p.groupId != gid
  {
    if ps != [] {
      PostsOfMembers(ps[1..], gid, p);
      assert ps == [ps[0]] + ps[1..];
    }
  }

  /** A post with its database ID erased: what two tables "ignoring IDs" compare. */
  function StripIds(ps: seq<Post>): (r: seq<Post>)
    ensures |r| == |ps|
    ensures forall i :: 0 <= i < |ps| ==> r[i] == ps[i].(id := 0)
  {
    seq(|ps|, i requires 0 <= i < |ps| => ps[i].(id := 0))
  }

  /** Deleting a group's posts and selecting them split the table without losing a post. */
  lemma {:induction false} PostsPartition(ps: seq<Post>, gid: nat)
    ensures multiset(PostsOf(ps, gid)) + multiset(PostsNotOf(ps, gid)) == multiset(ps)
  {
    if ps != [] {
      var tail := ps[1..];
      PostsPartition(tail, gid);
      assert ps == [ps[0]] + tail;
      assert multiset(ps) == multiset{ps[0]} + multiset(tail);
      if ps[0].groupId == gid {
        assert PostsOf(ps, gid) == [ps[0]] + PostsOf(tail, gid);
        assert PostsNotOf(ps, gid) == PostsNotOf(tail, gid);
      } else {
        assert PostsOf(ps, gid) == PostsOf(tail, gid);
        assert PostsNotOf(ps, gid) == [ps[0]] + PostsNotOf(tail, gid);
      }
    }
  }

  lemma {:induction false} PostsOfAppend(a: seq<Post>, b: seq<Post>, gid: nat)
    ensures PostsOf(a + b, gid) == PostsOf(a, gid) + PostsOf(b, gid)
  {
    if a != [] {
      assert (a + b)[1..] == a[1..] + b;
      PostsOfAppend(a[1..], b, gid);
    } else {
      assert a + b == b;
    }
  }

  lemma {:induction false} PostsNotOfAppend(a: seq<Post>, b: seq<Post>, gid: nat)
    ensures PostsNotOf(a + b, gid) == PostsNotOf(a, gid) + PostsNotOf(b, gid)
  {
    if a != [] {
      assert (a + b)[1..] == a[1..] + b;
      PostsNotOfAppend(a[1..], b, gid);
    } else {
      assert a + b == b;
    }
  }

  /** Deleting group `gid`'s posts does not change which posts another group owns. */
  lemma {:induction false} PostsOfAfterDelete(ps: seq<Post>, gid: nat, other: nat)
    requires other != gid
    ensures PostsOf(PostsNotOf(ps, gid), other) == PostsOf(ps, other)
  {
    if ps != [] {
      PostsOfAfterDelete(ps[1..], gid, other);
      var head := if ps[0].groupId != gid then [ps[0]] else [];
      PostsOfAppend(head, PostsNotOf(ps[1..], gid), other);
    }
  }

  /** Deleting a group's posts from a table that holds none of them changes nothing. */
  lemma {:induction false} PostsNotOfNone(ps: seq<Post>, gid: nat)
    requires forall i :: 0 <= i < |ps| ==> ps[i].groupId != gid
    ensures PostsNotOf(ps, gid) == ps
  {
    if ps != [] {
      PostsNotOfNone(ps[1..], gid);
      assert ps == [ps[0]] + ps[1..];
    }
  }

  /** A table whose posts all belong to `gid` is emptied by deleting `gid`'s posts. */
  lemma {:induction false} PostsNotOfAll(ps: seq<Post>, gid: nat)
    requires forall i :: 0 <= i < |ps| ==> ps[i].groupId == gid
    ensures PostsNotOf(ps, gid) == []
    ensures PostsOf(ps, gid) == ps
  {
    if ps != [] {
      PostsNotOfAll(ps[1..], gid);
      assert ps == [ps[0]] + ps[1..];
    }
  }

  lemma {:induction false} PostsOfNone(ps: seq<Post>, gid: nat)
    requires forall i :: 0 <= i < |ps| ==> ps[i].groupId != gid
    ensures PostsOf(ps, gid) == []
  {
    if ps != [] {
      PostsOfNone(ps[1..], gid);
    }
  }

  /** IDs strictly increase along the table, so they are pairwise distinct. */
  ghost predicate IdsIncreasing(ps: seq<Post>)
  {
    forall i, j :: 0 <= i < j < |ps| ==> ps[i].id < ps[j].id
  }

  /** Deleting a group's posts keeps the surviving posts' IDs increasing. */
  lemma {:induction false} PostsNotOfIncreasing(ps: seq<Post>, gid: nat)
    requires IdsIncreasing(ps)
    ensures IdsIncreasing(PostsNotOf(ps, gid))
  {
    if ps != [] {
      var tail := ps[1..];
      assert IdsIncreasing(tail) by {
        forall i, j | 0 <= i < j < |tail| ensures tail[i].id < tail[j].id {
          assert tail[i] == ps[i + 1] && tail[j] == ps[j + 1];
        }
      }
      PostsNotOfIncreasing(tail, gid);
      var rest := PostsNotOf(tail, gid);
      if ps[0].groupId != gid {
        forall j | 0 <= j < |rest| ensures ps[0].id < rest[j].id {
          PostsOfMembers(tail, gid, rest[j]);
          assert rest[j] in tail;
          var k :| 0 <= k < |tail| && tail[k] == rest[j];
          assert tail[k] == ps[k + 1];
        }
      }
    }
  }

  /** After deleting a group's posts none of them is left. */
  lemma PostsOfDeleted(ps: seq<Post>, gid: nat)
    ensures PostsOf(PostsNotOf(ps, gid), gid) == []
  {
    var kept := PostsNotOf(ps, gid);
    forall i | 0 <= i < |kept| ensures kept[i].groupId != gid {
      PostsOfMembers(ps, gid, kept[i]);
    }
    PostsOfNone(kept, gid);
  }

  /** Deleting a group's posts a second time deletes nothing more. */
  lemma PostsNotOfTwice(ps: seq<Post>, gid: nat)
    ensures PostsNotOf(PostsNotOf(ps, gid), gid) == PostsNotOf(ps, gid)
  {
    var kept := PostsNotOf(ps, gid);
    forall i | 0 <= i < |kept| ensures kept[i].groupId != gid {
      PostsOfMembers(ps, gid, kept[i]);
    }
    PostsNotOfNone(kept, gid);
  }

  /** Forgetting IDs distributes over concatenation. */
  lemma StripIdsAppend(a: seq<Post>, b: seq<Post>)
    ensures StripIds(a + b) == StripIds(a) + StripIds(b)
  {
    forall i | 0 <= i < |a| + |b| ensures StripIds(a + b)[i] == (StripIds(a) + StripIds(b))[i] {
      if i < |a| {
        assert (a + b)[i] == a[i];
      } else {
        assert (a + b)[i] == b[i - |a|];
      }
    }
  }
}

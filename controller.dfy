/** The group controller: registering a group from a link, and replacing its stored
    posts with a fresh fetch of its wall. The two tables are object state; each method
    is tied to a pure step function over the tables, and the lemmas are about those. */
module Controller {
  import opened Wrappers
  import opened Models
  import opened VkService

  // ---------------------------------------------------------------------------
  // Table invariants.

  /** The unique index on the group domain. */
  ghost predicate DomainsUnique(gs: seq<Group>)
  {
    forall i, j :: 0 <= i < j < |gs| ==> gs[i].domain != gs[j].domain
  }

  /** Auto-increment keys: increasing along the table and below the next key. */
  ghost predicate GroupsValid(gs: seq<Group>, nextId: nat)
  {
    && DomainsUnique(gs)
    && (forall i, j :: 0 <= i < j < |gs| ==> gs[i].id < gs[j].id)
    && (forall i :: 0 <= i < |gs| ==> gs[i].id < nextId)
  }

  ghost predicate PostsValid(ps: seq<Post>, nextId: nat)
  {
    IdsIncreasing(ps) && forall i :: 0 <= i < |ps| ==> ps[i].id < nextId
  }

  // ---------------------------------------------------------------------------
  // Registering a group.

  /** The row whose domain is `d`, the query `domain = ?` with `First`. */
  function FindByDomain(gs: seq<Group>, d: string): (r: Option<nat>)
    ensures r.Some? ==> r.value < |gs| && gs[r.value].domain == d
    ensures r.None? <==> forall i :: 0 <= i < |gs| ==> gs[i].domain != d
  {
    if gs == [] then None
    else if gs[0].domain == d then Some(0)
    else
      match FindByDomain(gs[1..], d)
      case None => None
      case Some(i) => Some(i + 1)
  }

  /** Updating a row from a struct: only the struct's non-zero fields are written. */
  function MergeNonZero(row: Group, parsed: Group): (r: Group)
    ensures r.id == row.id
    ensures r.domain == (if parsed.domain == "" then row.domain else parsed.domain)
    ensures r.subscribers == (if parsed.subscribers == 0 then row.subscribers else parsed.subscribers)
    ensures r.parsedAt == (if parsed.parsedAt.Zero? then row.parsedAt else parsed.parsedAt)
  {
    Group(row.id,
          if parsed.domain != "" then parsed.domain else row.domain,
          if parsed.subscribers != 0 then parsed.subscribers else row.subscribers,
          if parsed.parsedAt.Zero? then row.parsedAt else parsed.parsedAt)
  }

  /** The answer of the add request. `Saved` carries the key and domain the background
      refresh is started with. */
  datatype AddOutcome =
    | LinkRequired
    | ParseFailed(error: VkError)
    | UpdateFailed
    | CreateFailed
    | Saved(groupId: nat, domain: string)

  datatype AddStep = AddStep(outcome: AddOutcome, groups: seq<Group>, nextGroupId: nat)

  /** The add request as a step on the group table. `storeFails` says whether the
      update or insert it issues is refused by the store; `now` is the insert time. */
  function AddGroupStep(gs: seq<Group>, nextId: nat, token: string, link: string,
                        lookup: string -> Fetch<GroupResponse>, storeFails: bool, now: int): (r: AddStep)
    ensures r.outcome.Saved? <==> link != "" && ParseOutcome(token, link, lookup).Success? && !storeFails
    ensures !r.outcome.Saved? ==> r.groups == gs && r.nextGroupId == nextId
    ensures r.outcome.Saved? ==> r.outcome.domain == ParseOutcome(token, link, lookup).value.domain
    ensures nextId <= r.nextGroupId <= nextId + 1
    ensures |gs| <= |r.groups| <= |gs| + 1
  {
    if link == "" then AddStep(LinkRequired, gs, nextId)
    else
      match ParseOutcome(token, link, lookup)
      case Failure(e) => AddStep(ParseFailed(e), gs, nextId)
      case Success(parsed) =>
        match FindByDomain(gs, parsed.domain)
        case Some(i) =>
          if storeFails then AddStep(UpdateFailed, gs, nextId)
          else AddStep(Saved(gs[i].id, parsed.domain), gs[i := MergeNonZero(gs[i], parsed)], nextId)
        case None =>
          if storeFails then AddStep(CreateFailed, gs, nextId)
          else AddStep(Saved(nextId, parsed.domain),
                       gs + [Group(nextId, parsed.domain, parsed.subscribers, At(now))], nextId + 1)
  }

  /** A row is found exactly where its domain is, since domains are unique. */
  lemma {:induction false} FindByDomainUnique(gs: seq<Group>, i: nat)
    requires DomainsUnique(gs) && i < |gs|
    ensures FindByDomain(gs, gs[i].domain) == Some(i)
  {
    if i > 0 {
      var tail := gs[1..];
      assert DomainsUnique(tail) by {
        forall a, b | 0 <= a < b < |tail| ensures tail[a].domain != tail[b].domain {
          assert tail[a] == gs[a + 1] && tail[b] == gs[b + 1];
        }
      }
      assert tail[i - 1] == gs[i];
      FindByDomainUnique(tail, i - 1);
    }
  }

  /** Writing the same struct twice is writing it once. */
  lemma MergeNonZeroIdempotent(row: Group, parsed: Group)
    ensures MergeNonZero(MergeNonZero(row, parsed), parsed) == MergeNonZero(row, parsed)
  {
  }

  /** The group a successful parse yields: only the domain is set. */
  lemma ParsedGroupShape(token: string, link: string, lookup: string -> Fetch<GroupResponse>)
    ensures ParseOutcome(token, link, lookup).Success? ==>
      var g := ParseOutcome(token, link, lookup).value;
      g.id == 0 && g.subscribers == 0 && g.parsedAt == Zero
  {
  }

  /** Rejected requests leave the group table as it was. */
  lemma AddRejectionsChangeNothing(gs: seq<Group>, nextId: nat, token: string, link: string,
                                   lookup: string -> Fetch<GroupResponse>, storeFails: bool, now: int)
    ensures link == "" ==> AddGroupStep(gs, nextId, token, link, lookup, storeFails, now).outcome == LinkRequired
    ensures !AddGroupStep(gs, nextId, token, link, lookup, storeFails, now).outcome.Saved? ==>
      AddGroupStep(gs, nextId, token, link, lookup, storeFails, now).groups == gs &&
      AddGroupStep(gs, nextId, token, link, lookup, storeFails, now).nextGroupId == nextId
    ensures link != "" && ParseOutcome(token, link, lookup).Failure? ==>
      AddGroupStep(gs, nextId, token, link, lookup, storeFails, now).outcome ==
      ParseFailed(ParseOutcome(token, link, lookup).error)
  {
  }

  /** Adding a known domain keeps its key and the table's shape: no row is added,
      and the row is rewritten only where the parsed group has non-zero fields. */
  lemma AddExistingReusesId(gs: seq<Group>, nextId: nat, token: string, link: string,
                            lookup: string -> Fetch<GroupResponse>, now: int, i: nat)
    requires DomainsUnique(gs) && i < |gs| && link != ""
    requires ParseOutcome(token, link, lookup).Success?
    requires ParseOutcome(token, link, lookup).value.domain == gs[i].domain
    ensures var s := AddGroupStep(gs, nextId, token, link, lookup, false, now);
      s.outcome == Saved(gs[i].id, gs[i].domain) && s.nextGroupId == nextId && s.groups == gs
  {
    FindByDomainUnique(gs, i);
    var parsed := ParseOutcome(token, link, lookup).value;
    ParsedGroupShape(token, link, lookup);
    assert MergeNonZero(gs[i], parsed) == gs[i];
  }

  /** Adding an unknown domain appends exactly one row under a fresh key. */
  lemma AddNewAppendsFreshRow(gs: seq<Group>, nextId: nat, token: string, link: string,
                              lookup: string -> Fetch<GroupResponse>, now: int)
    requires GroupsValid(gs, nextId) && link != ""
    requires ParseOutcome(token, link, lookup).Success?
    requires forall i :: 0 <= i < |gs| ==> gs[i].domain != ParseOutcome(token, link, lookup).value.domain
    ensures var d := ParseOutcome(token, link, lookup).value.domain;
      var s := AddGroupStep(gs, nextId, token, link, lookup, false, now);
      s.outcome == Saved(nextId, d) && s.groups == gs + [Group(nextId, d, 0, At(now))] &&
      s.nextGroupId == nextId + 1
    ensures forall i :: 0 <= i < |gs| ==> gs[i].id != nextId
  {
    ParsedGroupShape(token, link, lookup);
  }

  /** Merging into the row that already has the domain keeps the group invariants. */
  lemma MergeKeepsGroupsValid(gs: seq<Group>, nextId: nat, i: nat, parsed: Group)
    requires GroupsValid(gs, nextId) && i < |gs| && gs[i].domain == parsed.domain
    ensures GroupsValid(gs[i := MergeNonZero(gs[i], parsed)], nextId)
  {
    var ns := gs[i := MergeNonZero(gs[i], parsed)];
    forall a, b | 0 <= a < b < |ns| ensures ns[a].domain != ns[b].domain {
      assert ns[a].domain == gs[a].domain && ns[b].domain == gs[b].domain;
    }
    forall a | 0 <= a < |ns| ensures ns[a].id == gs[a].id {
    }
  }

  /** Appending a row with a new domain under the next key keeps the group invariants. */
  lemma AppendKeepsGroupsValid(gs: seq<Group>, nextId: nat, row: Group)
    requires GroupsValid(gs, nextId) && row.id == nextId
    requires forall i :: 0 <= i < |gs| ==> gs[i].domain != row.domain
    ensures GroupsValid(gs + [row], nextId + 1)
  {
    var ns := gs + [row];
    forall a, b | 0 <= a < b < |ns| ensures ns[a].domain != ns[b].domain {
      assert ns[a] == gs[a];
    }
  }

  /** Every step keeps the table invariants. */
  lemma AddKeepsTablesValid(gs: seq<Group>, nextId: nat, token: string, link: string,
                            lookup: string -> Fetch<GroupResponse>, storeFails: bool, now: int)
    requires GroupsValid(gs, nextId)
    ensures var s := AddGroupStep(gs, nextId, token, link, lookup, storeFails, now);
      GroupsValid(s.groups, s.nextGroupId)
  {
    var s := AddGroupStep(gs, nextId, token, link, lookup, storeFails, now);
    var po := ParseOutcome(token, link, lookup);
    if link != "" && po.Success? && !storeFails {
      var parsed := po.value;
      match FindByDomain(gs, parsed.domain)
      case Some(i) =>
        MergeKeepsGroupsValid(gs, nextId, i, parsed);
        assert s.groups == gs[i := MergeNonZero(gs[i], parsed)] && s.nextGroupId == nextId;
      case None =>
        var row := Group(nextId, parsed.domain, parsed.subscribers, At(now));
        AppendKeepsGroupsValid(gs, nextId, row);
        assert s.groups == gs + [row] && s.nextGroupId == nextId + 1;
    }
  }

  /** Adding the same link twice gives the same key and the same table as adding it
      once, whenever the store accepts both writes. */
  lemma AddGroupIdempotent(gs: seq<Group>, nextId: nat, token: string, link: string,
                           lookup: string -> Fetch<GroupResponse>, now1: int, now2: int)
    requires GroupsValid(gs, nextId)
    ensures var s1 := AddGroupStep(gs, nextId, token, link, lookup, false, now1);
      var s2 := AddGroupStep(s1.groups, s1.nextGroupId, token, link, lookup, false, now2);
      s2 == s1
  {
    var s1 := AddGroupStep(gs, nextId, token, link, lookup, false, now1);
    if link != "" && ParseOutcome(token, link, lookup).Success? {
      var parsed := ParseOutcome(token, link, lookup).value;
      ParsedGroupShape(token, link, lookup);
      AddKeepsTablesValid(gs, nextId, token, link, lookup, false, now1);
      match FindByDomain(gs, parsed.domain)
      case Some(i) =>
        assert s1.groups[i].domain == parsed.domain;
        FindByDomainUnique(s1.groups, i);
        MergeNonZeroIdempotent(gs[i], parsed);
        assert s1.groups[i := MergeNonZero(s1.groups[i], parsed)] == s1.groups;
      case None =>
        assert s1.groups[|gs|].domain == parsed.domain;
        FindByDomainUnique(s1.groups, |gs|);
        assert MergeNonZero(s1.groups[|gs|], parsed) == s1.groups[|gs|];
        assert s1.groups[|gs| := s1.groups[|gs|]] == s1.groups;
    }
  }

  // ---------------------------------------------------------------------------
  // Refreshing a group's posts.

  /** A stored post from a wall item; the reaction count is the like count. */
  function ToPost(item: WallPost, gid: nat, formatDate: int -> string, id: nat): (p: Post)
    ensures p.id == id && p.groupId == gid && p.reactions == p.likes
    ensures p.likes == item.likes && p.comments == item.comments && p.views == item.views
    ensures p.text == item.text && p.date == formatDate(item.date)
  {
    Post(id, gid, formatDate(item.date), item.views, item.likes, item.likes, item.text, item.comments)
  }

  /** The rows inserted for `items`, in order; an insert whose item index is in `failed`
      is refused and skipped, the others take consecutive keys from `firstId`. */
  function SavedPosts(items: seq<WallPost>, failed: set<nat>, gid: nat, formatDate: int -> string,
                      firstId: nat): (saved: seq<Post>)
    ensures |saved| <= |items|
    decreases |items|
  {
    if items == [] then []
    else
      var before := SavedPosts(items[..|items| - 1], failed, gid, formatDate, firstId);
      if |items| - 1 in failed then before
      else before + [ToPost(items[|items| - 1], gid, formatDate, firstId + |before|)]
  }

  /** Every inserted row belongs to the group and carries the next consecutive key. */
  lemma {:induction false} SavedPostsKeys(items: seq<WallPost>, failed: set<nat>, gid: nat,
                                          formatDate: int -> string, firstId: nat)
    ensures forall k :: 0 <= k < |SavedPosts(items, failed, gid, formatDate, firstId)| ==>
      SavedPosts(items, failed, gid, formatDate, firstId)[k].groupId == gid &&
      SavedPosts(items, failed, gid, formatDate, firstId)[k].id == firstId + k
    decreases |items|
  {
    if items != [] {
      var init := items[..|items| - 1];
      SavedPostsKeys(init, failed, gid, formatDate, firstId);
      var before := SavedPosts(init, failed, gid, formatDate, firstId);
      var saved := SavedPosts(items, failed, gid, formatDate, firstId);
      forall k | 0 <= k < |saved| ensures saved[k].groupId == gid && saved[k].id == firstId + k {
        if k < |before| {
          assert saved[k] == before[k];
        }
      }
    }
  }

  /** Every inserted row is converted from an item whose insert was not refused. */
  lemma {:induction false} SavedPostsOrigin(items: seq<WallPost>, failed: set<nat>, gid: nat,
                                            formatDate: int -> string, firstId: nat, k: nat)
    requires k < |SavedPosts(items, failed, gid, formatDate, firstId)|
    ensures exists j :: (0 <= j < |items| && j !in failed &&
                         SavedPosts(items, failed, gid, formatDate, firstId)[k] ==
                         ToPost(items[j], gid, formatDate, firstId + k))
    decreases |items|
  {
    var init := items[..|items| - 1];
    var before := SavedPosts(init, failed, gid, formatDate, firstId);
    var saved := SavedPosts(items, failed, gid, formatDate, firstId);
    if k < |before| {
      assert saved[k] == before[k];
      SavedPostsOrigin(init, failed, gid, formatDate, firstId, k);
      var j :| 0 <= j < |init| && j !in failed && before[k] == ToPost(init[j], gid, formatDate, firstId + k);
      assert init[j] == items[j];
    } else {
      assert saved[k] == ToPost(items[|items| - 1], gid, formatDate, firstId + k);
    }
  }

  /** With no refused insert every item is stored, in order. */
  lemma {:induction false} SavedPostsAll(items: seq<WallPost>, failed: set<nat>, gid: nat,
                                         formatDate: int -> string, firstId: nat)
    requires forall j :: 0 <= j < |items| ==> j !in failed
    ensures var saved := SavedPosts(items, failed, gid, formatDate, firstId);
      |saved| == |items| &&
      forall k :: 0 <= k < |items| ==> saved[k] == ToPost(items[k], gid, formatDate, firstId + k)
    decreases |items|
  {
    if items != [] {
      var init := items[..|items| - 1];
      SavedPostsAll(init, failed, gid, formatDate, firstId);
      var saved := SavedPosts(items, failed, gid, formatDate, firstId);
      forall k | 0 <= k < |items| ensures saved[k] == ToPost(items[k], gid, formatDate, firstId + k) {
        if k < |init| {
          assert init[k] == items[k];
        }
      }
    }
  }

  /** The items whose insert is not refused, in their wall order. */
  function AcceptedItems(items: seq<WallPost>, failed: set<nat>): (r: seq<WallPost>)
    ensures |r| <= |items|
    decreases |items|
  {
    if items == [] then []
    else
      var before := AcceptedItems(items[..|items| - 1], failed);
      if |items| - 1 in failed then before else before + [items[|items| - 1]]
  }

  /** A refused insert is skipped and the loop goes on: every item whose insert is not
      refused is stored, whatever happened to the items before it. */
  lemma {:induction false} SavedPostsComplete(items: seq<WallPost>, failed: set<nat>, gid: nat,
                                              formatDate: int -> string, firstId: nat, j: nat)
    requires j < |items| && j !in failed
    ensures exists k :: (0 <= k < |SavedPosts(items, failed, gid, formatDate, firstId)| &&
                         SavedPosts(items, failed, gid, formatDate, firstId)[k] ==
                         ToPost(items[j], gid, formatDate, firstId + k))
    decreases |items|
  {
    var init := items[..|items| - 1];
    var before := SavedPosts(init, failed, gid, formatDate, firstId);
    var saved := SavedPosts(items, failed, gid, formatDate, firstId);
    if j == |items| - 1 {
      assert saved[|before|] == ToPost(items[j], gid, formatDate, firstId + |before|);
    } else {
      SavedPostsComplete(init, failed, gid, formatDate, firstId, j);
      var k :| 0 <= k < |before| && before[k] == ToPost(init[j], gid, formatDate, firstId + k);
      assert saved[k] == before[k];
      assert init[j] == items[j];
    }
  }

  /** The stored rows are exactly the accepted items, converted in order with consecutive
      keys from `firstId`. */
  lemma {:induction false} SavedPostsInOrder(items: seq<WallPost>, failed: set<nat>, gid: nat,
                                             formatDate: int -> string, firstId: nat)
    ensures |SavedPosts(items, failed, gid, formatDate, firstId)| == |AcceptedItems(items, failed)|
    ensures forall k :: 0 <= k < |AcceptedItems(items, failed)| ==>
      SavedPosts(items, failed, gid, formatDate, firstId)[k] ==
      ToPost(AcceptedItems(items, failed)[k], gid, formatDate, firstId + k)
    decreases |items|
  {
    if items != [] {
      var init := items[..|items| - 1];
      SavedPostsInOrder(init, failed, gid, formatDate, firstId);
      var before := SavedPosts(init, failed, gid, formatDate, firstId);
      var acc := AcceptedItems(init, failed);
      var saved := SavedPosts(items, failed, gid, formatDate, firstId);
      var all := AcceptedItems(items, failed);
      forall k | 0 <= k < |all|
        ensures saved[k] == ToPost(all[k], gid, formatDate, firstId + k)
      {
        if k < |acc| {
          assert saved[k] == before[k];
          assert all[k] == acc[k];
        }
      }
    }
  }

  /** The keys the store hands out do not change what is stored. */
  lemma {:induction false} SavedPostsIdsIrrelevant(items: seq<WallPost>, failed: set<nat>, gid: nat,
                                                   formatDate: int -> string, id1: nat, id2: nat)
    ensures StripIds(SavedPosts(items, failed, gid, formatDate, id1)) ==
            StripIds(SavedPosts(items, failed, gid, formatDate, id2))
    decreases |items|
  {
    if items != [] {
      var init := items[..|items| - 1];
      SavedPostsIdsIrrelevant(init, failed, gid, formatDate, id1, id2);
      var b1 := SavedPosts(init, failed, gid, formatDate, id1);
      var b2 := SavedPosts(init, failed, gid, formatDate, id2);
      if |items| - 1 !in failed {
        var last := items[|items| - 1];
        StripIdsAppend(b1, [ToPost(last, gid, formatDate, id1 + |b1|)]);
        StripIdsAppend(b2, [ToPost(last, gid, formatDate, id2 + |b2|)]);
        assert StripIds([ToPost(last, gid, formatDate, id1 + |b1|)]) ==
               StripIds([ToPost(last, gid, formatDate, id2 + |b2|)]);
      }
    }
  }

  datatype RefreshError = DeleteFailed | FetchFailed(error: VkError)

  datatype RefreshStep = RefreshStep(error: Option<RefreshError>, posts: seq<Post>, nextPostId: nat)

  /** The refresh as a step on the post table: delete the group's rows, fetch up to 100
      wall items, insert one row per item. A refused delete stops everything; a failed
      fetch leaves the group with no rows. */
  function RefreshStepOf(ps: seq<Post>, nextId: nat, token: string, gid: nat, domain: string,
                         wall: WallRequest -> Fetch<WallResponse>, deleteFails: bool,
                         failed: set<nat>, formatDate: int -> string): (r: RefreshStep)
    ensures r.error == Some(DeleteFailed) <==> deleteFails
    ensures deleteFails ==> r.posts == ps && r.nextPostId == nextId
    ensures r.error.None? <==> !deleteFails && GetWallPosts(token, domain, 100, wall).Success?
    ensures !deleteFails ==> PostsNotOf(ps, gid) <= r.posts
    ensures r.nextPostId - nextId == |r.posts| - |PostsNotOf(ps, gid)| || deleteFails
  {
    if deleteFails then RefreshStep(Some(DeleteFailed), ps, nextId)
    else
      var kept := PostsNotOf(ps, gid);
      match GetWallPosts(token, domain, 100, wall)
      case Failure(e) => RefreshStep(Some(FetchFailed(e)), kept, nextId)
      case Success(items) =>
        var saved := SavedPosts(items, failed, gid, formatDate, nextId);
        RefreshStep(None, kept + saved, nextId + |saved|)
  }

  /** The posts of every other group are untouched, whatever happens. */
  lemma RefreshTouchesOnlyItsGroup(ps: seq<Post>, nextId: nat, token: string, gid: nat, domain: string,
                                   wall: WallRequest -> Fetch<WallResponse>, deleteFails: bool,
                                   failed: set<nat>, formatDate: int -> string, other: nat)
    requires other != gid
    ensures PostsOf(RefreshStepOf(ps, nextId, token, gid, domain, wall, deleteFails, failed, formatDate).posts, other)
            == PostsOf(ps, other)
  {
    if !deleteFails {
      PostsOfAfterDelete(ps, gid, other);
      var kept := PostsNotOf(ps, gid);
      var r := GetWallPosts(token, domain, 100, wall);
      if r.Success? {
        var saved := SavedPosts(r.value, failed, gid, formatDate, nextId);
        SavedPostsKeys(r.value, failed, gid, formatDate, nextId);
        PostsOfNone(saved, other);
        PostsOfAppend(kept, saved, other);
      }
    }
  }

  /** After the delete the group's rows are exactly the inserted ones: none when the
      fetch fails. A refused delete changes nothing. */
  lemma RefreshReplacesGroupPosts(ps: seq<Post>, nextId: nat, token: string, gid: nat, domain: string,
                                  wall: WallRequest -> Fetch<WallResponse>, deleteFails: bool,
                                  failed: set<nat>, formatDate: int -> string)
    ensures var s := RefreshStepOf(ps, nextId, token, gid, domain, wall, deleteFails, failed, formatDate);
      deleteFails ==> s == RefreshStep(Some(DeleteFailed), ps, nextId)
    ensures var s := RefreshStepOf(ps, nextId, token, gid, domain, wall, deleteFails, failed, formatDate);
      !deleteFails && GetWallPosts(token, domain, 100, wall).Failure? ==>
        s.error == Some(FetchFailed(GetWallPosts(token, domain, 100, wall).error)) && PostsOf(s.posts, gid) == []
    ensures var s := RefreshStepOf(ps, nextId, token, gid, domain, wall, deleteFails, failed, formatDate);
      !deleteFails && GetWallPosts(token, domain, 100, wall).Success? ==>
        s.error == None &&
        PostsOf(s.posts, gid) == SavedPosts(GetWallPosts(token, domain, 100, wall).value, failed, gid, formatDate, nextId)
  {
    if !deleteFails {
      PostsOfDeleted(ps, gid);
      var kept := PostsNotOf(ps, gid);
      var r := GetWallPosts(token, domain, 100, wall);
      if r.Success? {
        var saved := SavedPosts(r.value, failed, gid, formatDate, nextId);
        SavedPostsKeys(r.value, failed, gid, formatDate, nextId);
        PostsNotOfAll(saved, gid);
        PostsOfAppend(kept, saved, gid);
      }
    }
  }

  /** The refresh keeps the post table's key invariants. */
  lemma RefreshKeepsTablesValid(ps: seq<Post>, nextId: nat, token: string, gid: nat, domain: string,
                                wall: WallRequest -> Fetch<WallResponse>, deleteFails: bool,
                                failed: set<nat>, formatDate: int -> string)
    requires PostsValid(ps, nextId)
    ensures var s := RefreshStepOf(ps, nextId, token, gid, domain, wall, deleteFails, failed, formatDate);
      PostsValid(s.posts, s.nextPostId) && s.nextPostId >= nextId
  {
    if !deleteFails {
      var kept := PostsNotOf(ps, gid);
      PostsNotOfIncreasing(ps, gid);
      forall i | 0 <= i < |kept| ensures kept[i].id < nextId {
        PostsOfMembers(ps, gid, kept[i]);
      }
      var r := GetWallPosts(token, domain, 100, wall);
      if r.Success? {
        var saved := SavedPosts(r.value, failed, gid, formatDate, nextId);
        SavedPostsKeys(r.value, failed, gid, formatDate, nextId);
        var all := kept + saved;
        forall i, j | 0 <= i < j < |all| ensures all[i].id < all[j].id {
          if j < |kept| {
            assert all[i] == kept[i] && all[j] == kept[j];
          } else if i < |kept| {
            assert all[i] == kept[i] && all[j] == saved[j - |kept|];
          } else {
            assert all[i] == saved[i - |kept|] && all[j] == saved[j - |kept|];
          }
        }
        forall i | 0 <= i < |all| ensures all[i].id < nextId + |saved| {
          if i < |kept| {
            assert all[i] == kept[i];
          } else {
            assert all[i] == saved[i - |kept|];
          }
        }
      }
    }
  }

  /** Refreshing twice from the same wall stores the same rows as refreshing once, up to
      the keys the store hands out. */
  lemma RefreshTwiceSameContents(ps: seq<Post>, nextId: nat, token: string, gid: nat, domain: string,
                                 wall: WallRequest -> Fetch<WallResponse>,
                                 failed: set<nat>, formatDate: int -> string)
    ensures var s1 := RefreshStepOf(ps, nextId, token, gid, domain, wall, false, failed, formatDate);
      var s2 := RefreshStepOf(s1.posts, s1.nextPostId, token, gid, domain, wall, false, failed, formatDate);
      s2.error == s1.error && StripIds(s2.posts) == StripIds(s1.posts)
  {
    var kept := PostsNotOf(ps, gid);
    PostsNotOfTwice(ps, gid);
    var r := GetWallPosts(token, domain, 100, wall);
    if r.Success? {
      var s1 := RefreshStepOf(ps, nextId, token, gid, domain, wall, false, failed, formatDate);
      var saved1 := SavedPosts(r.value, failed, gid, formatDate, nextId);
      var saved2 := SavedPosts(r.value, failed, gid, formatDate, s1.nextPostId);
      SavedPostsKeys(r.value, failed, gid, formatDate, nextId);
      PostsNotOfAll(saved1, gid);
      PostsNotOfAppend(kept, saved1, gid);
      assert PostsNotOf(s1.posts, gid) == kept;
      SavedPostsIdsIrrelevant(r.value, failed, gid, formatDate, nextId, s1.nextPostId);
      StripIdsAppend(kept, saved1);
      StripIdsAppend(kept, saved2);
    }
  }

  // ---------------------------------------------------------------------------
  // The controller object.

  /** The controller with its two tables and their key counters. The remote API's
      answers, the store's refusals, the clock and the date formatting are passed to
      each request. */
  class GroupController {
    const accessToken: string
    var groups: seq<Group>
    var posts: seq<Post>
    var nextGroupId: nat
    var nextPostId: nat

    ghost predicate Valid()
      reads this
    {
      GroupsValid(groups, nextGroupId) && PostsValid(posts, nextPostId)
    }

    constructor(accessToken: string)
      ensures Valid()
      ensures this.accessToken == accessToken
      ensures groups == [] && posts == [] && nextGroupId == 1 && nextPostId == 1
    {
      this.accessToken := accessToken;
      groups := [];
      posts := [];
      nextGroupId := 1;
      nextPostId := 1;
    }

    /** Registers the group a link names: rejects an empty link, reports a parse error,
        updates the row of a known domain or inserts a new one. */
    method AddGroup(link: string, lookup: string -> Fetch<GroupResponse>, storeFails: bool, now: int)
      returns (outcome: AddOutcome)
      requires Valid()
      modifies this
      ensures Valid()
      ensures var s := AddGroupStep(old(groups), old(nextGroupId), accessToken, link, lookup, storeFails, now);
        outcome == s.outcome && groups == s.groups && nextGroupId == s.nextGroupId
      ensures posts == old(posts) && nextPostId == old(nextPostId)
    {
      AddKeepsTablesValid(groups, nextGroupId, accessToken, link, lookup, storeFails, now);
      if link == "" {
        return LinkRequired;
      }
      var parsed := ParseGroupFromLink(accessToken, link, lookup);
      if parsed.Failure? {
        return ParseFailed(parsed.error);
      }
      var group := parsed.value;
      var existing := FindByDomain(groups, group.domain);
      if existing.Some? {
        if storeFails {
          return UpdateFailed;
        }
        var i := existing.value;
        groups := groups[i := MergeNonZero(groups[i], group)];
        return Saved(groups[i].id, group.domain);
      }
      if storeFails {
        return CreateFailed;
      }
      var id := nextGroupId;
      groups := groups + [Group(id, group.domain, group.subscribers, At(now))];
      nextGroupId := nextGroupId + 1;
      return Saved(id, group.domain);
    }

    /** Replaces the stored posts of group `groupId` with its current wall. */
    method FetchAndSaveWallPosts(groupId: nat, domain: string, wall: WallRequest -> Fetch<WallResponse>,
                                 deleteFails: bool, failedInserts: set<nat>, formatDate: int -> string)
      returns (err: Option<RefreshError>)
      requires Valid()
      modifies this
      ensures Valid()
      ensures var s := RefreshStepOf(old(posts), old(nextPostId), accessToken, groupId, domain, wall,
                                     deleteFails, failedInserts, formatDate);
        err == s.error && posts == s.posts && nextPostId == s.nextPostId
      ensures groups == old(groups) && nextGroupId == old(nextGroupId)
    {
      RefreshKeepsTablesValid(posts, nextPostId, accessToken, groupId, domain, wall, deleteFails, failedInserts, formatDate);
      if deleteFails {
        return Some(DeleteFailed);
      }
      posts := PostsNotOf(posts, groupId);
      var wallPosts := GetWallPosts(accessToken, domain, 100, wall);
      if wallPosts.Failure? {
        return Some(FetchFailed(wallPosts.error));
      }
      var items := wallPosts.value;
      ghost var kept := posts;
      ghost var firstId := nextPostId;
      for i := 0 to |items|
        invariant posts == kept + SavedPosts(items[..i], failedInserts, groupId, formatDate, firstId)
        invariant nextPostId == firstId + |SavedPosts(items[..i], failedInserts, groupId, formatDate, firstId)|
        invariant groups == old(groups) && nextGroupId == old(nextGroupId)
      {
        assert items[..i + 1][..i] == items[..i];
        if i !in failedInserts {
          var post := ToPost(items[i], groupId, formatDate, nextPostId);
          posts := posts + [post];
          nextPostId := nextPostId + 1;
        }
      }
      assert items[..|items|] == items;
      return None;
    }
  }
}

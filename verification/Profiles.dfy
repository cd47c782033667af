/**
 Profile hydration for many accounts at once. One joined query returns a row per
 link, a loop groups the rows back into profiles, and the caller's friendships and
 blocks are read once for the page.
 */
module Profiles {
  import opened Common
  import Pairs

  datatype Link = Link(title: string, url: string)

  datatype Profile = Profile(id: AccountId, details: string, links: seq<Link>)

  /** The account row's columns, and its links in position order. */
  datatype Account = Account(details: string, links: seq<Link>)

  type Accounts = map<AccountId, Account>

  datatype Row = Row(position: int, id: AccountId, details: string, link: Option<Link>)

  // ---- the query ----

  /** The rows the left join yields for one requested id. */
  function RowsFor(accounts: Accounts, id: AccountId, position: int): seq<Row>
    requires id in accounts
  {
    var account := accounts[id];
    if account.links == [] then [Row(position, id, account.details, None)]
    else seq(|account.links|, i requires 0 <= i < |account.links| =>
               Row(position, id, account.details, Some(account.links[i])))
  }

  /** `ORDER BY request_position, link.position` over the ids as requested, unknown ones dropped by the join. */
  function JoinedRows(accounts: Accounts, ids: seq<AccountId>): seq<Row> {
    if ids == [] then []
    else
      var n := |ids| - 1;
      JoinedRows(accounts, ids[..n]) + (if ids[n] in accounts then RowsFor(accounts, ids[n], n) else [])
  }

  // ---- what the loop is for ----

  function ProfileOf(accounts: Accounts, id: AccountId): Profile
    requires id in accounts
  {
    Profile(id, accounts[id].details, accounts[id].links)
  }

  /** The profiles of the requested ids that exist, in request order, duplicates included. */
  function ProfilesOf(accounts: Accounts, ids: seq<AccountId>): seq<Profile> {
    if ids == [] then []
    else
      var n := |ids| - 1;
      ProfilesOf(accounts, ids[..n]) + (if ids[n] in accounts then [ProfileOf(accounts, ids[n])] else [])
  }

  lemma {:induction false} RowPositions(accounts: Accounts, ids: seq<AccountId>)
    ensures forall i :: 0 <= i < |JoinedRows(accounts, ids)| ==> 0 <= JoinedRows(accounts, ids)[i].position < |ids|
  {
    if ids != [] {
      RowPositions(accounts, ids[..|ids| - 1]);
    }
  }

  // ---- the loop ----

  datatype Grouping = Grouping(profiles: seq<Profile>, current: Option<int>)

  /** One turn of the loop: a new position starts a profile, a link goes to the profile on top. */
  function Push(g: Grouping, row: Row): Grouping {
    var started :=
      if g.current != Some(row.position) then g.profiles + [Profile(row.id, row.details, [])] else g.profiles;
    if row.link.Some? && started != [] then
      var top := started[|started| - 1];
      Grouping(started[|started| - 1 := top.(links := top.links + [row.link.value])], Some(row.position))
    else
      Grouping(started, Some(row.position))
  }

  function Grouped(rows: seq<Row>): Grouping {
    if rows == [] then Grouping([], None) else Push(Grouped(rows[..|rows| - 1]), rows[|rows| - 1])
  }

  lemma {:induction false} GroupedOneMore(rows: seq<Row>, row: Row)
    ensures Grouped(rows + [row]) == Push(Grouped(rows), row)
  {
    assert (rows + [row])[..|rows|] == rows;
  }

  lemma {:induction false} CurrentIsLast(rows: seq<Row>)
    requires rows != []
    ensures Grouped(rows).current == Some(rows[|rows| - 1].position)
  {
  }

  lemma RowAt(accounts: Accounts, id: AccountId, position: int, j: nat)
    requires id in accounts && j < |RowsFor(accounts, id, position)|
    ensures RowsFor(accounts, id, position)[j].position == position
    ensures RowsFor(accounts, id, position)[j].id == id
    ensures RowsFor(accounts, id, position)[j].details == accounts[id].details
    ensures accounts[id].links == [] ==> j == 0 && RowsFor(accounts, id, position)[j].link == None
    ensures accounts[id].links != [] ==>
              j < |accounts[id].links| && RowsFor(accounts, id, position)[j].link == Some(accounts[id].links[j])
  {
  }

  lemma {:induction false} PushFirst(g: Grouping, row: Row)
    requires g.current != Some(row.position)
    ensures Push(g, row) ==
            Grouping(g.profiles + [Profile(row.id, row.details, if row.link.Some? then [row.link.value] else [])],
                     Some(row.position))
  {
    var started := g.profiles + [Profile(row.id, row.details, [])];
    if row.link.Some? {
      var top := Profile(row.id, row.details, [row.link.value]);
      assert [] + [row.link.value] == [row.link.value];
      assert started[|started| - 1 := top] == g.profiles + [top];
    }
  }

  lemma {:induction false} PushNext(profiles: seq<Profile>, top: Profile, row: Row)
    requires row.link.Some?
    ensures Push(Grouping(profiles + [top], Some(row.position)), row) ==
            Grouping(profiles + [top.(links := top.links + [row.link.value])], Some(row.position))
  {
  }

  /** The rows of one request, as far as link `j`, become one profile with the links so far. */
  lemma {:induction false} GroupsOne(accounts: Accounts, rows: seq<Row>, id: AccountId, position: int, j: nat)
    requires id in accounts && j < |RowsFor(accounts, id, position)|
    requires Grouped(rows).current != Some(position)
    ensures j < |accounts[id].links| || accounts[id].links == []
    ensures Grouped(rows + RowsFor(accounts, id, position)[..j + 1]) ==
            Grouping(Grouped(rows).profiles +
                       [Profile(id, accounts[id].details,
                                if accounts[id].links == [] then [] else accounts[id].links[..j + 1])],
                     Some(position))
  {
    hide Grouped, RowsFor, Push;
    var block := RowsFor(accounts, id, position);
    var links := accounts[id].links;
    RowAt(accounts, id, position, j);
    assert block[..j + 1] == block[..j] + [block[j]];
    assert rows + block[..j + 1] == (rows + block[..j]) + [block[j]];
    GroupedOneMore(rows + block[..j], block[j]);
    if j == 0 {
      assert rows + block[..0] == rows;
      PushFirst(Grouped(rows), block[0]);
      assert links != [] ==> links[..1] == [links[0]];
    } else {
      GroupsOne(accounts, rows, id, position, j - 1);
      PushNext(Grouped(rows).profiles, Profile(id, accounts[id].details, links[..j]), block[j]);
      assert links[..j] + [links[j]] == links[..j + 1];
    }
  }

  lemma {:induction false} GroupsAll(accounts: Accounts, ids: seq<AccountId>)
    ensures Grouped(JoinedRows(accounts, ids)).profiles == ProfilesOf(accounts, ids)
  {
    if ids == [] {
    } else {
      var n := |ids| - 1;
      var before := JoinedRows(accounts, ids[..n]);
      GroupsAll(accounts, ids[..n]);
      if ids[n] in accounts {
        var block := RowsFor(accounts, ids[n], n);
        RowPositions(accounts, ids[..n]);
        if before != [] {
          CurrentIsLast(before);
        }
        GroupsOne(accounts, before, ids[n], n, |block| - 1);
        assert block[..|block|] == block;
        assert accounts[ids[n]].links[..|accounts[ids[n]].links|] == accounts[ids[n]].links;
      } else {
        assert before + [] == before;
      }
    }
  }

  /** The query and the loop over its rows. */
  method GetProfilesBulk(accounts: Accounts, ids: seq<AccountId>) returns (profiles: seq<Profile>)
    ensures profiles == ProfilesOf(accounts, ids)
  {
    var rows := JoinedRows(accounts, ids);
    profiles := [];
    var current: Option<int> := None;
    var n := 0;
    while n < |rows|
      invariant 0 <= n <= |rows|
      invariant Grouping(profiles, current) == Grouped(rows[..n])
    {
      var row := rows[n];
      assert rows[..n + 1] == rows[..n] + [row];
      GroupedOneMore(rows[..n], row);
      if current != Some(row.position) {
        current := Some(row.position);
        profiles := profiles + [Profile(row.id, row.details, [])];
      }
      if row.link.Some? && profiles != [] {
        var top := profiles[|profiles| - 1];
        profiles := profiles[|profiles| - 1 := top.(links := top.links + [row.link.value])];
      }
      n := n + 1;
    }
    assert rows[..n] == rows;
    GroupsAll(accounts, ids);
  }

  // ---- one profile, and many ----

  datatype Relationship = SelfView | Friend | Stranger

  datatype Context = Context(
    profile: Profile, relationship: Relationship, callerBlockedOwner: bool, ownerBlockedCaller: bool)

  /** `friendship::find_by_pair` on the canonical pair, accepted rows only. */
  predicate AreFriends(st: Pairs.State, caller: AccountId, target: AccountId) {
    exists f :: f in st.friendships && st.friendships[f].pair == Pairs.PairOf(caller, target) &&
        st.friendships[f].accepted
  }

  /** `get_profile_context` without a server. */
  function SingleContext(accounts: Accounts, st: Pairs.State, caller: AccountId, target: AccountId): Result<Context> {
    var profiles := ProfilesOf(accounts, [target]);
    if profiles == [] then Err(AccountNotFound)
    else if caller == target then Ok(Context(profiles[|profiles| - 1], SelfView, false, false))
    else
      Ok(Context(profiles[|profiles| - 1],
                 if AreFriends(st, caller, target) then Friend else Stranger,
                 (caller, target) in st.blocks, (target, caller) in st.blocks))
  }

  /**
   What one context says, by the rows: the profile and its links, friends exactly when
   an accepted row joins the two, and for each side whether it blocks the other.
   */
  lemma {:induction false} ContextSays(accounts: Accounts, st: Pairs.State, caller: AccountId, target: AccountId)
    requires Pairs.PairsOk(st)
    ensures var one := SingleContext(accounts, st, caller, target);
            && (one == Err(AccountNotFound) <==> target !in accounts)
            && (target in accounts ==>
                  && one.Ok?
                  && one.value.profile == Profile(target, accounts[target].details, accounts[target].links)
                  && (one.value.relationship == SelfView <==> caller == target)
                  && (one.value.relationship == Friend <==>
                        caller != target &&
                        exists f :: f in st.friendships && st.friendships[f].accepted &&
                                    {st.friendships[f].pair.low, st.friendships[f].pair.high} == {caller, target})
                  && (one.value.callerBlockedOwner <==> (caller, target) in st.blocks)
                  && (one.value.ownerBlockedCaller <==> (target, caller) in st.blocks))
  {
    if target in accounts {
      assert [target][..0] == [];
      assert ProfilesOf(accounts, [target]) == [ProfileOf(accounts, target)];
      if caller == target {
        Pairs.NoSelfBlocks(st);
      } else {
        forall f | f in st.friendships
          ensures st.friendships[f].pair == Pairs.PairOf(caller, target) <==>
                    {st.friendships[f].pair.low, st.friendships[f].pair.high} == {caller, target}
        {
          var pair := st.friendships[f].pair;
          assert Pairs.RowOk(st.friendships[f]);
          Pairs.PairIsSet(caller, target, pair.low, pair.high);
        }
      }
    } else {
      UnknownContext(accounts, st, caller, target);
    }
  }

  /** The requested ids that exist, in request order. */
  function Existing(accounts: Accounts, ids: seq<AccountId>): seq<AccountId> {
    if ids == [] then [] else (if ids[0] in accounts then [ids[0]] else []) + Existing(accounts, ids[1..])
  }

  lemma {:induction false} ExistingOneMore(accounts: Accounts, ids: seq<AccountId>, id: AccountId)
    ensures Existing(accounts, ids + [id]) == Existing(accounts, ids) + (if id in accounts then [id] else [])
  {
    if ids == [] {
      assert [id][1..] == [];
    } else {
      ExistingOneMore(accounts, ids[1..], id);
      assert (ids + [id])[1..] == ids[1..] + [id];
    }
  }

  /** The bulk read returns one profile for each requested id that exists, in request order, with all its columns. */
  lemma {:induction false} ProfilesInOrder(accounts: Accounts, ids: seq<AccountId>)
    ensures var profiles, existing := ProfilesOf(accounts, ids), Existing(accounts, ids);
            && |profiles| == |existing|
            && forall i :: 0 <= i < |profiles| ==>
                 existing[i] in accounts &&
                 profiles[i] == Profile(existing[i], accounts[existing[i]].details, accounts[existing[i]].links)
  {
    if ids != [] {
      var n := |ids| - 1;
      ProfilesInOrder(accounts, ids[..n]);
      ExistingOneMore(accounts, ids[..n], ids[n]);
      assert ids == ids[..n] + [ids[n]];
    }
  }

  /** `get_profile_context` mapped over the requested ids, those that do not exist left out. */
  function EachSingle(accounts: Accounts, st: Pairs.State, caller: AccountId, ids: seq<AccountId>): seq<Context> {
    if ids == [] then []
    else
      var n := |ids| - 1;
      var one := SingleContext(accounts, st, caller, ids[n]);
      EachSingle(accounts, st, caller, ids[..n]) + (if one.Ok? then [one.value] else [])
  }

  /** The other side of every accepted friendship of the caller. */
  function FriendsOf(st: Pairs.State, caller: AccountId): set<AccountId> {
    set f | f in st.friendships && st.friendships[f].accepted &&
            (st.friendships[f].pair.low == caller || st.friendships[f].pair.high == caller) ::
      if st.friendships[f].pair.low == caller then st.friendships[f].pair.high else st.friendships[f].pair.low
  }

  function BulkContext(st: Pairs.State, caller: AccountId, profile: Profile): Context {
    Context(profile,
            if profile.id == caller then SelfView
            else if profile.id in FriendsOf(st, caller) then Friend else Stranger,
            (caller, profile.id) in st.blocks, (profile.id, caller) in st.blocks)
  }

  function EachBulk(st: Pairs.State, caller: AccountId, profiles: seq<Profile>): seq<Context> {
    seq(|profiles|, i requires 0 <= i < |profiles| => BulkContext(st, caller, profiles[i]))
  }

  /** Rows are canonical, so the caller's side tells who the other is. */
  lemma FriendsAgree(st: Pairs.State, caller: AccountId, target: AccountId)
    requires Pairs.RowsUnique(st.friendships, st.issued) && caller != target
    ensures target in FriendsOf(st, caller) <==> AreFriends(st, caller, target)
  {
    if target in FriendsOf(st, caller) {
      var f :| f in st.friendships && st.friendships[f].accepted &&
            (st.friendships[f].pair.low == caller || st.friendships[f].pair.high == caller) &&
            target ==
              if st.friendships[f].pair.low == caller then st.friendships[f].pair.high else st.friendships[f].pair.low;
      assert Pairs.RowOk(st.friendships[f]);
      assert st.friendships[f].pair == Pairs.PairOf(caller, target);
    }
    if AreFriends(st, caller, target) {
      var f :| f in st.friendships && st.friendships[f].pair == Pairs.PairOf(caller, target) &&
          st.friendships[f].accepted;
    }
  }

  lemma {:induction false} ContextsAgree(accounts: Accounts, st: Pairs.State, caller: AccountId, target: AccountId)
    requires Pairs.PairsOk(st) && target in accounts
    ensures SingleContext(accounts, st, caller, target) == Ok(BulkContext(st, caller, ProfileOf(accounts, target)))
  {
    assert [target][..0] == [];
    assert ProfilesOf(accounts, [target]) == [ProfileOf(accounts, target)];
    if caller == target {
      Pairs.NoSelfBlocks(st);
    } else {
      FriendsAgree(st, caller, target);
    }
  }

  lemma {:induction false} UnknownContext(accounts: Accounts, st: Pairs.State, caller: AccountId, target: AccountId)
    requires target !in accounts
    ensures SingleContext(accounts, st, caller, target) == Err(AccountNotFound)
  {
    assert [target][..0] == [];
    assert ProfilesOf(accounts, [target]) == ProfilesOf(accounts, []) + [];
  }

  lemma {:induction false} BulkRefines(accounts: Accounts, st: Pairs.State, caller: AccountId, ids: seq<AccountId>)
    requires Pairs.PairsOk(st)
    ensures EachBulk(st, caller, ProfilesOf(accounts, ids)) == EachSingle(accounts, st, caller, ids)
  {
    hide SingleContext, BulkContext, Pairs.PairsOk;
    if ids == [] {
    } else {
      var n := |ids| - 1;
      BulkRefines(accounts, st, caller, ids[..n]);
      if ids[n] in accounts {
        ContextsAgree(accounts, st, caller, ids[n]);
      } else {
        UnknownContext(accounts, st, caller, ids[n]);
      }
    }
  }

  /**
   In every state any run of requests, removals and blocks reaches, the bulk form
   answers what the single form answers for each existing id, in request order,
   duplicates included.
   */
  method GetProfileContextsBulk(
    accounts: Accounts, ghost steps: seq<Pairs.Step>, st: Pairs.State, caller: AccountId, ids: seq<AccountId>)
    returns (contexts: seq<Context>)
    requires Pairs.Runs(Pairs.START, steps) && st == Pairs.Final(Pairs.START, steps)
    ensures contexts == EachSingle(accounts, st, caller, ids)
  {
    hide Pairs.Runs, Pairs.Final, Pairs.PairsOk;
    Pairs.StartOk();
    Pairs.RunKeeps(Pairs.START, steps);
    var profiles := GetProfilesBulk(accounts, ids);
    var friends := FriendsOf(st, caller);
    var callerBlocked := set k | k in st.blocks && k.0 == caller :: k.1;
    var blockedCaller := set k | k in st.blocks && k.1 == caller :: k.0;
    contexts := seq(|profiles|, i requires 0 <= i < |profiles| =>
      Context(profiles[i],
              if profiles[i].id == caller then SelfView
              else if profiles[i].id in friends then Friend else Stranger,
              profiles[i].id in callerBlocked, profiles[i].id in blockedCaller));
    assert contexts == EachBulk(st, caller, profiles);
    BulkRefines(accounts, st, caller, ids);
  }
}

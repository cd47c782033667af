/**
 The realtime hub, one method per call the gateway or an admin handler makes, each
 run without interference. Maps are walked in an order nobody controls; what the
 methods ensure does not mention it.
 */
module HubService {
  import opened Common
  import opened Voice

  datatype Presence = Online | Offline

  class Hub {
    var connections: Registry
    var voice: Rooms
    var issued: int

    ghost predicate Valid()
      reads this
    {
      NoEmptyList(connections) && HandlesOk(connections, issued) && VoiceOk(connections, voice)
    }

    constructor ()
      ensures Valid() && connections == map[] && voice == map[]
    {
      connections, voice, issued := map[], map[], 0;
    }

    /** The new handle was never handed out before; the flag says whether the account came online. */
    method Register(a: AccountId) returns (h: Handle, cameOnline: bool)
      requires Valid()
      modifies this`connections, this`issued
      ensures Valid()
      ensures h == Handle(old(issued)) && issued == old(issued) + 1
      ensures forall b :: !Connected(old(connections), b, h)
      ensures connections == Pushed(old(connections), a, h)
      ensures cameOnline <==> a !in old(connections)
    {
      PushedKeeps(connections, voice, issued, a);
      h := Handle(issued);
      issued := issued + 1;
      var list := (if a in connections then connections[a] else []) + [h];
      connections := connections[a := list];
      cameOnline := |list| == 1;
    }

    /** Walks the rooms until the first match, then drops empty rooms. */
    method VoiceLeave(a: AccountId, only: Option<Handle>) returns (left: Option<ChannelId>)
      requires Valid()
      modifies this`voice
      ensures Valid()
      ensures forall c, x, h :: At(voice, c, x, h) <==> At(old(voice), c, x, h) && !(x == a && Matches(only, h))
      ensures forall c :: left == Some(c) <==> In(old(voice), c, a) && Matches(only, old(voice)[c][a])
    {
      hide VoiceOk, NoEmptyList, HandlesOk, OneRoom;
      assert OneRoom(voice, a) by {
        assert VoiceOk(connections, voice);
        OneRoomOf(connections, voice, a);
      }
      left := FirstMatch(a, only);
      if left.Some? {
        OneMatch(voice, left.value, a, only);
        WithoutSeats(voice, left.value, a);
        voice := voice[left.value := voice[left.value] - {a}];
      } else {
        SweptSeats(voice);
      }
      voice := Swept(voice);
      FewerSeatsKeep(connections, old(voice), voice);
    }

    /** The walk itself: stops at the first room that matches, in whatever order the map is walked. */
    method FirstMatch(a: AccountId, only: Option<Handle>) returns (found: Option<ChannelId>)
      ensures found.Some? ==> In(voice, found.value, a) && Matches(only, voice[found.value][a])
      ensures found.None? ==> forall c :: In(voice, c, a) ==> !Matches(only, voice[c][a])
    {
      found := None;
      var todo := voice.Keys;
      while todo != {}
        invariant todo <= voice.Keys && found == None
        invariant forall c :: In(voice, c, a) && Matches(only, voice[c][a]) ==> c in todo
        decreases |todo|
      {
        var c :| c in todo;
        if a in voice[c] && Matches(only, voice[c][a]) {
          found := Some(c);
          break;
        }
        todo := todo - {c};
      }
    }

    /** Leaves the call held by this connection, if any, then drops the connection. */
    method Unregister(a: AccountId, h: Handle) returns (wentOffline: bool)
      requires Valid()
      modifies this`connections, this`voice
      ensures Valid()
      ensures connections == Removed(old(connections), a, h)
      ensures forall c, x, g :: At(voice, c, x, g) <==> At(old(voice), c, x, g) && !(x == a && g == h)
      ensures wentOffline <==> a in old(connections) && a !in connections
    {
      hide VoiceOk, NoEmptyList, HandlesOk;
      var _ := VoiceLeave(a, Some(h));
      RemovedKeeps(connections, voice, issued, a, h);
      if a !in connections {
        return false;
      }
      var list := Retain(connections[a], h);
      connections := connections[a := list];
      if list == [] {
        connections := connections - {a};
        assert connections == Removed(old(connections), a, h);
        return true;
      }
      return false;
    }

    method Retain(list: seq<Handle>, h: Handle) returns (kept: seq<Handle>)
      ensures kept == Dropped(list, h)
    {
      kept := [];
      var i := |list|;
      while i > 0
        invariant 0 <= i <= |list|
        invariant kept == Dropped(list[i..], h)
      {
        i := i - 1;
        if list[i] != h {
          kept := [list[i]] + kept;
        }
      }
    }

    /** Moves the account into the call of `c`, out of any other, and returns who was already there. */
    method VoiceJoin(c: ChannelId, a: AccountId, h: Handle) returns (peers: set<AccountId>)
      requires Valid() && Connected(connections, a, h)
      modifies this`voice
      ensures Valid()
      ensures forall d, x, g :: At(voice, d, x, g) <==>
                if x == a then d == c && g == h else At(old(voice), d, x, g)
      ensures forall x :: x in peers <==> x != a && In(old(voice), c, x)
    {
      hide VoiceOk, NoEmptyList, HandlesOk, OneRoom, NoEmptyRoom;
      var _ := VoiceLeave(a, None);
      SeatOf(voice, a);
      ghost var mid := voice;
      SeatedKeeps(connections, voice, c, a, h);
      RoomsNotEmpty(connections, voice);
      SeatedSeats(voice, c, a, h);
      var room := if c in voice then voice[c] else map[];
      peers := room.Keys - {a};
      assert forall x :: x in peers <==> x != a && In(old(voice), c, x) by {
        forall x
          ensures x in peers <==> x != a && In(old(voice), c, x)
        {
          SameMember(old(voice), mid, c, a, x);
        }
      }
      voice := voice[c := room[a := h]];
    }

    /** Removes the account from the call of `c` and from no other. */
    method VoiceLeaveFromChannel(a: AccountId, c: ChannelId) returns (left: bool)
      requires Valid()
      modifies this`voice
      ensures Valid()
      ensures forall d, x, h :: At(voice, d, x, h) <==> At(old(voice), d, x, h) && !(d == c && x == a)
      ensures left <==> In(old(voice), c, a)
    {
      hide VoiceOk, NoEmptyList, HandlesOk;
      WithoutSeats(voice, c, a);
      left := c in voice && a in voice[c];
      if c in voice {
        voice := voice[c := voice[c] - {a}];
      }
      voice := Swept(voice);
      FewerSeatsKeep(connections, old(voice), voice);
    }

    method VoiceChannelOf(a: AccountId) returns (c: Option<ChannelId>)
      requires Valid()
      ensures forall d :: c == Some(d) <==> In(voice, d, a)
    {
      OneRoomOf(connections, voice, a);
      c := FirstMatch(a, None);
    }

    /**
     Evicts the account from its call if that belongs to the server. `lookup` is the
     database's answer for a channel; an error counts as a yes.
     */
    method VoiceLeaveIfInServer(a: AccountId, lookup: ChannelId -> Result<bool>)
      requires Valid()
      modifies this`voice
      ensures Valid()
      ensures forall d, x, h :: At(voice, d, x, h) <==>
                At(old(voice), d, x, h) && !(x == a && lookup(d) != Ok(false))
    {
      hide VoiceOk, NoEmptyList, HandlesOk;
      var c := VoiceChannelOf(a);
      forall d, h | At(voice, d, a, h)
        ensures c == Some(d)
      {
        assert In(voice, d, a);
      }
      if c.Some? {
        var inServer := match lookup(c.value)
          case Ok(answer) => answer
          case Err(_) => true;
        if inServer {
          var _ := VoiceLeaveFromChannel(a, c.value);
        }
      }
    }

    /** The connection a signal is delivered to: the one the receiver joined the shared call with. */
    method VoiceRelay(sender: AccountId, receiver: AccountId) returns (target: Option<(ChannelId, Handle)>)
      requires Valid()
      ensures target.None? <==> forall c :: !(In(voice, c, sender) && In(voice, c, receiver))
      ensures target.Some? ==>
                In(voice, target.value.0, sender) && At(voice, target.value.0, receiver, target.value.1) &&
                Connected(connections, receiver, target.value.1)
    {
      var todo := voice.Keys;
      target := None;
      while todo != {}
        invariant todo <= voice.Keys && target == None
        invariant forall c :: In(voice, c, sender) && In(voice, c, receiver) ==> c in todo
        decreases |todo|
      {
        var c :| c in todo;
        if sender in voice[c] && receiver in voice[c] {
          assert In(voice, c, receiver);
          target := Some((c, voice[c][receiver]));
          break;
        }
        todo := todo - {c};
      }
    }

    /** Who is in each of the calls asked about; a channel without a call is left out. */
    method VoiceRosters(ids: seq<ChannelId>) returns (rosters: map<ChannelId, set<AccountId>>)
      requires Valid()
      ensures forall c :: c in rosters <==> c in ids && exists a :: In(voice, c, a)
      ensures forall c, a :: c in rosters ==> (a in rosters[c] <==> In(voice, c, a))
    {
      rosters := map[];
      var i := 0;
      while i < |ids|
        invariant 0 <= i <= |ids|
        invariant forall c :: c in rosters <==> c in ids[..i] && c in voice
        invariant forall c :: c in rosters ==> rosters[c] == voice[c].Keys
      {
        var c := ids[i];
        assert ids[..i + 1] == ids[..i] + [c];
        if c in voice && voice[c] != map[] {
          rosters := rosters[c := voice[c].Keys];
        }
        i := i + 1;
      }
      assert ids[..i] == ids;
      forall c | c in voice
        ensures exists a :: In(voice, c, a)
      {
        var a :| a in voice[c];
        assert In(voice, c, a);
      }
    }

    /** Online exactly while the account has a connection. */
    method PresenceSnapshot(ids: seq<AccountId>) returns (statuses: map<AccountId, Presence>)
      requires Valid()
      ensures forall a :: a in statuses <==> a in ids
      ensures forall a :: a in ids ==> (statuses[a] == Online <==> exists h :: Connected(connections, a, h))
    {
      statuses := map[];
      var i := 0;
      while i < |ids|
        invariant 0 <= i <= |ids|
        invariant forall a :: a in statuses <==> a in ids[..i]
        invariant forall a :: a in statuses ==> (statuses[a] == Online <==> a in connections)
      {
        assert ids[..i + 1] == ids[..i] + [ids[i]];
        statuses := statuses[ids[i] := if ids[i] in connections then Online else Offline];
        i := i + 1;
      }
      assert ids[..i] == ids;
      forall a | a in connections
        ensures exists h :: Connected(connections, a, h)
      {
        assert Connected(connections, a, connections[a][0]);
      }
    }
  }

  lemma OneRoomOf(connections: Registry, voice: Rooms, a: AccountId)
    requires VoiceOk(connections, voice)
    ensures OneRoom(voice, a)
  {
  }

  lemma RoomsNotEmpty(connections: Registry, voice: Rooms)
    requires VoiceOk(connections, voice)
    ensures NoEmptyRoom(voice)
  {
  }

  /** With one room at most, the first match is the only match. */
  lemma OneMatch(voice: Rooms, c: ChannelId, a: AccountId, only: Option<Handle>)
    requires OneRoom(voice, a) && In(voice, c, a) && Matches(only, voice[c][a])
    ensures forall d, x, h :: At(voice, d, x, h) ==> ((x == a && Matches(only, h)) <==> (d == c && x == a))
    ensures forall d :: In(voice, d, a) <==> d == c
  {
    forall d, x, h | At(voice, d, x, h)
      ensures (x == a && Matches(only, h)) <==> (d == c && x == a)
    {
      if x == a {
        assert In(voice, d, a);
      }
    }
  }

  lemma SameMember(voice: Rooms, mid: Rooms, c: ChannelId, a: AccountId, x: AccountId)
    requires forall d, y, h :: At(mid, d, y, h) <==> At(voice, d, y, h) && !(y == a && Matches(None, h))
    ensures x != a ==> (In(mid, c, x) <==> In(voice, c, x))
  {
    if x != a {
      if In(mid, c, x) {
        assert At(mid, c, x, mid[c][x]);
      }
      if In(voice, c, x) {
        assert At(voice, c, x, voice[c][x]);
      }
    }
  }
}

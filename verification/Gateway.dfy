/**
 How sockets drive the hub: register on connect, voice calls while connected,
 unregister once on the way out. The events of all sockets arrive in any order.
 */
module Gateway {
  import opened Common
  import opened Voice
  import opened HubService

  datatype Frame =
    | JoinCall(channel: ChannelId, authorized: bool) // the answer of `can_join_voice`
    | LeaveCall
    | Signal(receiver: AccountId)
    | Ignored // ping, identify, malformed

  /** Sockets are numbered in the order they connect. */
  datatype Event =
    | Connects(account: AccountId)
    | Sends(socket: nat, frame: Frame)
    | Closes(socket: nat)
    | Evicts(account: AccountId, lookup: ChannelId -> Result<bool>) // an admin action elsewhere

  datatype Socket = Socket(account: AccountId, handle: Handle, open: bool)

  /** The registry holds exactly the open sockets, and no handle twice. */
  ghost predicate Tracks(connections: Registry, sockets: seq<Socket>) {
    && (forall i :: 0 <= i < |sockets| ==>
          (sockets[i].open <==> Connected(connections, sockets[i].account, sockets[i].handle)))
    && (forall a, h :: Connected(connections, a, h) ==>
          exists i :: 0 <= i < |sockets| && sockets[i] == Socket(a, h, true))
    && (forall i, j :: 0 <= i < j < |sockets| ==> sockets[i].handle != sockets[j].handle)
  }

  lemma {:induction false} TracksConnect(connections: Registry, sockets: seq<Socket>, a: AccountId, h: Handle)
    requires Tracks(connections, sockets)
    requires forall i :: 0 <= i < |sockets| ==> sockets[i].handle != h
    ensures Tracks(Pushed(connections, a, h), sockets + [Socket(a, h, true)])
  {
    PushedSeats(connections, a, h);
    hide Pushed, Connected;
    var next := sockets + [Socket(a, h, true)];
    forall b, g | Connected(Pushed(connections, a, h), b, g)
      ensures exists i :: 0 <= i < |next| && next[i] == Socket(b, g, true)
    {
      if Connected(connections, b, g) {
        var i :| 0 <= i < |sockets| && sockets[i] == Socket(b, g, true);
        assert next[i] == Socket(b, g, true);
      } else {
        assert next[|sockets|] == Socket(b, g, true);
      }
    }
  }

  lemma {:induction false} TracksClose(connections: Registry, sockets: seq<Socket>, i: nat)
    requires Tracks(connections, sockets) && NoEmptyList(connections) && i < |sockets|
    ensures Tracks(Removed(connections, sockets[i].account, sockets[i].handle),
        sockets[i := sockets[i].(open := false)])
  {
    RemovedSeats(connections, sockets[i].account, sockets[i].handle);
    hide Removed, Connected;
    var next := sockets[i := sockets[i].(open := false)];
    forall b, g | Connected(Removed(connections, sockets[i].account, sockets[i].handle), b, g)
      ensures exists j :: 0 <= j < |next| && next[j] == Socket(b, g, true)
    {
      var j :| 0 <= j < |sockets| && sockets[j] == Socket(b, g, true);
      assert next[j] == Socket(b, g, true);
    }
  }

  // ---- what a run means, without handles or nested maps ----

  /** Which sockets are open, and the one call each account is in: a channel, and the socket that joined it. */
  datatype World = World(sockets: seq<(AccountId, bool)>, calls: map<AccountId, (ChannelId, nat)>)

  const NOBODY := World([], map[])

  function After(w: World, event: Event): World {
    match event
    case Connects(a) => w.(sockets := w.sockets + [(a, true)])
    case Sends(i, frame) =>
      if i < |w.sockets| && w.sockets[i].1 then AfterFrame(w, i, frame) else w
    case Closes(i) =>
      if i < |w.sockets| && w.sockets[i].1 then
        var a := w.sockets[i].0;
        World(w.sockets[i := (a, false)],
              if a in w.calls && w.calls[a].1 == i then w.calls - {a} else w.calls)
      else w
    case Evicts(a, lookup) =>
      if a in w.calls && lookup(w.calls[a].0) != Ok(false) then w.(calls := w.calls - {a}) else w
  }

  function AfterFrame(w: World, i: nat, frame: Frame): World
    requires i < |w.sockets|
  {
    var a := w.sockets[i].0;
    match frame
    case JoinCall(c, authorized) => if authorized then w.(calls := w.calls[a := (c, i)]) else w
    case LeaveCall => w.(calls := w.calls - {a})
    case Signal(_) => w
    case Ignored => w
  }

  function AfterAll(events: seq<Event>): World {
    if events == [] then NOBODY
    else After(AfterAll(events[..|events| - 1]), events[|events| - 1])
  }

  /** Connecting adds an open socket, closing closes the one, and nothing else opens or closes any. */
  lemma SocketsTell(w: World, event: Event, i: nat)
    ensures var next := After(w, event).sockets;
            && |next| == |w.sockets| + (if event.Connects? then 1 else 0)
            && (i < |w.sockets| ==>
                  next[i].0 == w.sockets[i].0 && (next[i].1 <==> w.sockets[i].1 && event != Closes(i)))
            && (event.Connects? ==> next[|w.sockets|] == (event.account, true))
  {
  }

  /** An open socket of `a` joins the call of `c`, with leave. */
  predicate JoinsNow(w: World, event: Event, a: AccountId, c: ChannelId, i: nat) {
    event == Sends(i, JoinCall(c, true)) && i < |w.sockets| && w.sockets[i] == (a, true)
  }

  /** The account joins another call, leaves, loses the socket it joined with, or is evicted. */
  predicate EndsNow(w: World, event: Event, a: AccountId, c: ChannelId, i: nat) {
    match event
    case Connects(_) => false
    case Sends(k, frame) =>
      k < |w.sockets| && w.sockets[k] == (a, true) && (frame.LeaveCall? || (frame.JoinCall? && frame.authorized))
    case Closes(k) => k == i && k < |w.sockets| && w.sockets[k] == (a, true)
    case Evicts(b, lookup) => b == a && lookup(c) != Ok(false)
  }

  predicate InCall(w: World, a: AccountId, c: ChannelId, i: nat) {
    a in w.calls && w.calls[a] == (c, i)
  }

  /** Calls are held on sockets of the account. */
  ghost predicate CallsOwned(w: World) {
    forall a :: a in w.calls ==> w.calls[a].1 < |w.sockets| && w.sockets[w.calls[a].1] == (a, true)
  }

  lemma EventDecides(w: World, event: Event, a: AccountId, c: ChannelId, i: nat)
    requires CallsOwned(w)
    ensures CallsOwned(After(w, event))
    ensures InCall(After(w, event), a, c, i) <==>
              JoinsNow(w, event, a, c, i) || (InCall(w, a, c, i) && !EndsNow(w, event, a, c, i))
  {
  }

  ghost predicate JoinsAt(events: seq<Event>, n: nat, a: AccountId, c: ChannelId, i: nat)
    requires n < |events|
  {
    JoinsNow(AfterAll(events[..n]), events[n], a, c, i)
  }

  ghost predicate EndsAt(events: seq<Event>, n: nat, a: AccountId, c: ChannelId, i: nat)
    requires n < |events|
  {
    EndsNow(AfterAll(events[..n]), events[n], a, c, i)
  }

  /** After event `n` the account joined, and up to event `m` nothing ended that. */
  ghost predicate JoinedLast(events: seq<Event>, m: nat, a: AccountId, c: ChannelId, i: nat)
    requires m <= |events|
  {
    exists n {:trigger JoinsAt(events, n, a, c, i)} :: 0 <= n < m && JoinsAt(events, n, a, c, i) &&
      forall k :: n < k < m ==> !EndsAt(events, k, a, c, i)
  }

  /**
   An account is in a call on a socket exactly when that socket joined it, with leave,
   and since then the account has not joined another, left, been evicted or lost it.
   */
  lemma {:induction false} InCallExactlyWhenJoined(
    events: seq<Event>, m: nat, a: AccountId, c: ChannelId, i: nat)
    requires m <= |events|
    ensures InCall(AfterAll(events[..m]), a, c, i) <==> JoinedLast(events, m, a, c, i)
    decreases m
  {
    hide InCall, JoinsNow, EndsNow, After, CallsOwned;
    if m == 0 {
      NobodyInCall(a, c, i);
      assert events[..0] == [];
    } else {
      InCallExactlyWhenJoined(events, m - 1, a, c, i);
      CallsOnOpenSockets(events[..m - 1]);
      assert events[..m][..m - 1] == events[..m - 1];
      EventDecides(AfterAll(events[..m - 1]), events[m - 1], a, c, i);
      assert JoinsAt(events, m - 1, a, c, i) <==> JoinsNow(AfterAll(events[..m - 1]), events[m - 1], a, c, i);
      assert EndsAt(events, m - 1, a, c, i) <==> EndsNow(AfterAll(events[..m - 1]), events[m - 1], a, c, i);
      hide JoinsAt, EndsAt, AfterAll;
      if JoinedLast(events, m, a, c, i) && !JoinsAt(events, m - 1, a, c, i) {
        assert JoinedLast(events, m - 1, a, c, i) && !EndsAt(events, m - 1, a, c, i);
      }
    }
  }

  lemma NobodyInCall(a: AccountId, c: ChannelId, i: nat)
    ensures !InCall(NOBODY, a, c, i) && CallsOwned(NOBODY)
  {
  }

  ghost predicate SameSockets(w: World, sockets: seq<Socket>) {
    |w.sockets| == |sockets| &&
    forall i :: 0 <= i < |sockets| ==> w.sockets[i] == (sockets[i].account, sockets[i].open)
  }

  /** The calls of the world are exactly the seats of the hub's nested map, on the sockets that joined. */
  ghost predicate SameCalls(w: World, sockets: seq<Socket>, voice: Rooms) {
    && (forall a :: a in w.calls ==> w.calls[a].1 < |sockets|)
    && forall c, a, h :: At(voice, c, a, h) <==>
         a in w.calls && w.calls[a].0 == c && w.calls[a].1 < |sockets| && sockets[w.calls[a].1].handle == h
  }

  lemma {:induction false} HandleNamesSocket(connections: Registry, sockets: seq<Socket>, i: nat, j: nat)
    requires Tracks(connections, sockets) && i < |sockets| && j < |sockets|
    ensures sockets[i].handle == sockets[j].handle <==> i == j
  {
  }

  /** A socket that is open keeps its call through the bookkeeping of another one. */
  lemma {:induction false} CloseRefines(
    connections: Registry, w: World, sockets: seq<Socket>, voice: Rooms, next: Rooms, i: nat)
    requires Tracks(connections, sockets) && SameSockets(w, sockets) && SameCalls(w, sockets, voice)
    requires i < |sockets| && sockets[i].open
    requires forall c, x, g :: At(next, c, x, g) <==>
               At(voice, c, x, g) && !(x == sockets[i].account && g == sockets[i].handle)
    ensures SameSockets(After(w, Closes(i)), sockets[i := sockets[i].(open := false)])
    ensures SameCalls(After(w, Closes(i)), sockets[i := sockets[i].(open := false)], next)
  {
    var after := After(w, Closes(i));
    var closed := sockets[i := sockets[i].(open := false)];
    forall c, a, h
      ensures At(next, c, a, h) <==>
                a in after.calls && after.calls[a].0 == c && after.calls[a].1 < |closed| &&
                closed[after.calls[a].1].handle == h
    {
      if a in w.calls {
        HandleNamesSocket(connections, sockets, w.calls[a].1, i);
      }
    }
  }

  /**
   Any run of socket events and evictions, from an empty hub, means what the flat
   world says: the same sockets open, and each account in the one call, on the one
   socket, that the world gives it. The order in which maps are walked is not visible.
   */
  method Serve(hub: Hub, events: seq<Event>) returns (sockets: seq<Socket>)
    requires hub.Valid() && hub.connections == map[] && hub.voice == map[]
    modifies hub
    ensures hub.Valid()
    ensures Tracks(hub.connections, sockets)
    ensures SameSockets(AfterAll(events), sockets)
    ensures SameCalls(AfterAll(events), sockets, hub.voice)
  {
    hide VoiceOk, NoEmptyList, HandlesOk, After;
    sockets := [];
    var n := 0;
    while n < |events|
      invariant 0 <= n <= |events|
      invariant hub.Valid()
      invariant Tracks(hub.connections, sockets)
      invariant SameSockets(AfterAll(events[..n]), sockets)
      invariant SameCalls(AfterAll(events[..n]), sockets, hub.voice)
      invariant forall i :: 0 <= i < |sockets| ==> sockets[i].handle.id < hub.issued
    {
      assert events[..n + 1][..n] == events[..n];
      sockets := OnEvent(hub, AfterAll(events[..n]), sockets, events[n]);
      n := n + 1;
    }
    assert events[..n] == events;
  }

  method OnEvent(hub: Hub, ghost w: World, before: seq<Socket>, event: Event) returns (sockets: seq<Socket>)
    requires hub.Valid() && Tracks(hub.connections, before)
    requires SameSockets(w, before) && SameCalls(w, before, hub.voice)
    requires forall i :: 0 <= i < |before| ==> before[i].handle.id < hub.issued
    modifies hub
    ensures hub.Valid() && Tracks(hub.connections, sockets)
    ensures SameSockets(After(w, event), sockets) && SameCalls(After(w, event), sockets, hub.voice)
    ensures forall i :: 0 <= i < |sockets| ==> sockets[i].handle.id < hub.issued
  {
    hide VoiceOk, HandlesOk, Tracks;
    sockets := before;
    match event {
      case Connects(a) =>
        var h, _ := hub.Register(a);
        assert Tracks(hub.connections, before + [Socket(a, h, true)]) by {
          TracksConnect(old(hub.connections), before, a, h);
        }
        sockets := before + [Socket(a, h, true)];
      case Sends(i, frame) =>
        if i < |before| && before[i].open {
          OnFrame(hub, w, before, i, frame);
        }
      case Closes(i) =>
        if i < |before| && before[i].open {
          TracksClose(hub.connections, before, i);
          var _ := hub.Unregister(before[i].account, before[i].handle);
          sockets := before[i := before[i].(open := false)];
          CloseRefines(old(hub.connections), w, before, old(hub.voice), hub.voice, i);
        }
      case Evicts(a, lookup) =>
        hub.VoiceLeaveIfInServer(a, lookup);
    }
  }

  method OnFrame(hub: Hub, ghost w: World, sockets: seq<Socket>, i: nat, frame: Frame)
    requires hub.Valid() && Tracks(hub.connections, sockets)
    requires SameSockets(w, sockets) && SameCalls(w, sockets, hub.voice)
    requires i < |sockets| && sockets[i].open
    modifies hub`voice
    ensures hub.Valid()
    ensures SameSockets(After(w, Sends(i, frame)), sockets)
    ensures SameCalls(After(w, Sends(i, frame)), sockets, hub.voice)
  {
    hide VoiceOk, NoEmptyList, HandlesOk;
    match frame {
      case JoinCall(c, authorized) =>
        if authorized {
          var _ := hub.VoiceJoin(c, sockets[i].account, sockets[i].handle);
        }
      case LeaveCall =>
        var _ := hub.VoiceLeave(sockets[i].account, None);
      case Signal(receiver) =>
        var _ := hub.VoiceRelay(sockets[i].account, receiver);
      case Ignored =>
    }
  }

  /** A call never outlives the socket that joined it. */
  lemma {:induction false} CallsOnOpenSockets(events: seq<Event>)
    ensures CallsOwned(AfterAll(events))
  {
    hide CallsOwned, After;
    if events == [] {
      NobodyInCall(AccountId(0), ChannelId(0), 0);
    } else {
      var n := |events| - 1;
      CallsOnOpenSockets(events[..n]);
      EventDecides(AfterAll(events[..n]), events[n], AccountId(0), ChannelId(0), 0);
    }
  }
}

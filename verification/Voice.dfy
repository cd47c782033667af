/** The hub's two maps as values: who is connected, and who is in which call. */
module Voice {
  import opened Common

  /** One live connection. The real ids are fresh per `register`; here they are counted. */
  datatype Handle = Handle(id: int)

  type Registry = map<AccountId, seq<Handle>>
  type Room = map<AccountId, Handle>
  type Rooms = map<ChannelId, Room>

  // ---- the connection registry ----

  predicate Connected(connections: Registry, a: AccountId, h: Handle) {
    a in connections && h in connections[a]
  }

  function Pushed(connections: Registry, a: AccountId, h: Handle): Registry {
    connections[a := (if a in connections then connections[a] else []) + [h]]
  }

  /** `retain(|conn| conn.handle != handle)`. */
  function Dropped(handles: seq<Handle>, h: Handle): (rest: seq<Handle>)
    ensures forall x :: x in rest <==> x in handles && x != h
  {
    if handles == [] then []
    else if handles[0] == h then Dropped(handles[1..], h)
    else [handles[0]] + Dropped(handles[1..], h)
  }

  /** The entry goes away with its last connection. */
  function Removed(connections: Registry, a: AccountId, h: Handle): Registry {
    if a !in connections then connections
    else if Dropped(connections[a], h) == [] then connections - {a}
    else connections[a := Dropped(connections[a], h)]
  }

  ghost predicate NoEmptyList(connections: Registry) {
    forall a :: a in connections ==> connections[a] != []
  }

  // ---- calls ----

  /** Account `a` is in the call of channel `c` on connection `h`. */
  predicate At(voice: Rooms, c: ChannelId, a: AccountId, h: Handle) {
    c in voice && a in voice[c] && voice[c][a] == h
  }

  predicate In(voice: Rooms, c: ChannelId, a: AccountId) {
    c in voice && a in voice[c]
  }

  predicate Matches(only: Option<Handle>, h: Handle) {
    only.None? || only.value == h
  }

  ghost predicate OneRoom(voice: Rooms, a: AccountId) {
    forall c, d :: In(voice, c, a) && In(voice, d, a) ==> c == d
  }

  ghost predicate NoEmptyRoom(voice: Rooms) {
    forall c :: c in voice ==> voice[c] != map[]
  }

  ghost predicate HeldByConnection(connections: Registry, voice: Rooms) {
    forall c, a :: In(voice, c, a) ==> Connected(connections, a, voice[c][a])
  }

  /** What the gateway's use of the hub keeps true. */
  ghost predicate VoiceOk(connections: Registry, voice: Rooms) {
    && (forall a :: OneRoom(voice, a))
    && NoEmptyRoom(voice)
    && HeldByConnection(connections, voice)
  }

  /** `retain(|_, room| !room.is_empty())`. */
  function Swept(voice: Rooms): Rooms {
    map c | c in voice && voice[c] != map[] :: voice[c]
  }

  /** Takes `a` out of the call of `c` and drops the room if that empties it. */
  function Without(voice: Rooms, c: ChannelId, a: AccountId): Rooms {
    Swept(if c in voice then voice[c := voice[c] - {a}] else voice)
  }

  function Seated(voice: Rooms, c: ChannelId, a: AccountId, h: Handle): Rooms {
    voice[c := (if c in voice then voice[c] else map[])[a := h]]
  }

  /** Two voice maps without empty rooms are equal when the same accounts are in the same calls. */
  lemma SameSeats(voice: Rooms, other: Rooms)
    requires NoEmptyRoom(voice) && NoEmptyRoom(other)
    requires forall c, a, h :: At(voice, c, a, h) <==> At(other, c, a, h)
    ensures voice == other
  {
    forall c
      ensures c in voice ==> c in other
      ensures c in other ==> c in voice
    {
      if c in voice {
        var a :| a in voice[c];
        assert At(voice, c, a, voice[c][a]);
      } else if c in other {
        var a :| a in other[c];
        assert At(other, c, a, other[c][a]);
      }
    }
    forall c | c in voice
      ensures voice[c] == other[c]
    {
      forall a
        ensures a in voice[c] <==> a in other[c]
        ensures a in voice[c] ==> voice[c][a] == other[c][a]
      {
        if a in voice[c] {
          assert At(voice, c, a, voice[c][a]);
        }
        if a in other[c] {
          assert At(other, c, a, other[c][a]);
        }
      }
    }
  }

  /** Handles are handed out once, and to one account. */
  ghost predicate HandlesOk(connections: Registry, issued: int) {
    && (forall a, h :: Connected(connections, a, h) ==> h.id < issued)
    && (forall a, b, h :: Connected(connections, a, h) && Connected(connections, b, h) ==> a == b)
  }

  // ---- each region of code keeps it ----

  lemma PushedSeats(connections: Registry, a: AccountId, h: Handle)
    ensures forall b, g :: Connected(Pushed(connections, a, h), b, g) <==>
              Connected(connections, b, g) || (b == a && g == h)
  {
    var next := Pushed(connections, a, h);
    forall b, g
      ensures Connected(next, b, g) <==> Connected(connections, b, g) || (b == a && g == h)
    {
      if b == a && a in connections {
        assert g in connections[a] + [h] <==> g in connections[a] || g == h;
      }
    }
  }

  lemma PushedKeeps(connections: Registry, voice: Rooms, issued: int, a: AccountId)
    requires NoEmptyList(connections) && HandlesOk(connections, issued) && VoiceOk(connections, voice)
    ensures NoEmptyList(Pushed(connections, a, Handle(issued)))
    ensures HandlesOk(Pushed(connections, a, Handle(issued)), issued + 1)
    ensures VoiceOk(Pushed(connections, a, Handle(issued)), voice)
  {
    PushedSeats(connections, a, Handle(issued));
    hide Pushed, Connected;
    assert NoEmptyList(Pushed(connections, a, Handle(issued))) by {
      PushedNotEmpty(connections, a, Handle(issued));
    }
  }

  lemma PushedNotEmpty(connections: Registry, a: AccountId, h: Handle)
    requires NoEmptyList(connections)
    ensures NoEmptyList(Pushed(connections, a, h))
  {
  }

  lemma {:induction false} RemovedSeats(connections: Registry, a: AccountId, h: Handle)
    requires NoEmptyList(connections)
    ensures NoEmptyList(Removed(connections, a, h))
    ensures forall b, g :: Connected(Removed(connections, a, h), b, g) <==>
              Connected(connections, b, g) && !(b == a && g == h)
  {
    if a in connections {
      var rest := Dropped(connections[a], h);
      forall b, g
        ensures Connected(Removed(connections, a, h), b, g) <==> Connected(connections, b, g) && !(b == a && g == h)
      {
        if b == a {
          assert g in rest <==> g in connections[a] && g != h;
        }
      }
    }
  }

  lemma {:induction false} RemovedKeeps(connections: Registry, voice: Rooms, issued: int, a: AccountId, h: Handle)
    requires NoEmptyList(connections) && HandlesOk(connections, issued) && VoiceOk(connections, voice)
    requires forall c :: !At(voice, c, a, h)
    ensures NoEmptyList(Removed(connections, a, h))
    ensures HandlesOk(Removed(connections, a, h), issued)
    ensures VoiceOk(Removed(connections, a, h), voice)
  {
    RemovedSeats(connections, a, h);
    hide Removed, Connected;
    forall c, b | In(voice, c, b)
      ensures Connected(Removed(connections, a, h), b, voice[c][b])
    {
      assert At(voice, c, b, voice[c][b]);
    }
  }

  lemma WithoutSeats(voice: Rooms, c: ChannelId, a: AccountId)
    ensures NoEmptyRoom(Without(voice, c, a))
    ensures forall d, b, h :: At(Without(voice, c, a), d, b, h) <==> At(voice, d, b, h) && !(d == c && b == a)
  {
    var rest := if c in voice then voice[c := voice[c] - {a}] else voice;
    SweptSeats(rest);
    forall d, b, h
      ensures At(rest, d, b, h) <==> At(voice, d, b, h) && !(d == c && b == a)
    {
    }
    assert Without(voice, c, a) == Swept(rest);
  }

  lemma SweptSeats(voice: Rooms)
    ensures NoEmptyRoom(Swept(voice))
    ensures forall d, b, h :: At(Swept(voice), d, b, h) <==> At(voice, d, b, h)
  {
  }

  /** Fewer seats, same connections. */
  lemma FewerSeatsKeep(connections: Registry, voice: Rooms, next: Rooms)
    requires VoiceOk(connections, voice) && NoEmptyRoom(next)
    requires forall c, a, h :: At(next, c, a, h) ==> At(voice, c, a, h)
    ensures VoiceOk(connections, next)
  {
    hide Connected;
    forall c, a | In(next, c, a)
      ensures In(voice, c, a) && voice[c][a] == next[c][a]
    {
      assert At(next, c, a, next[c][a]);
    }
    forall a
      ensures OneRoom(next, a)
    {
      assert OneRoom(voice, a);
    }
  }

  /** Being in a call is being there on some connection. */
  lemma SeatOf(voice: Rooms, a: AccountId)
    ensures forall c :: In(voice, c, a) <==> exists h :: At(voice, c, a, h)
  {
    forall c
      ensures In(voice, c, a) ==> At(voice, c, a, voice[c][a])
    {
    }
  }

  lemma SeatedSeats(voice: Rooms, c: ChannelId, a: AccountId, h: Handle)
    requires NoEmptyRoom(voice)
    ensures NoEmptyRoom(Seated(voice, c, a, h))
    ensures forall d, b, g :: At(Seated(voice, c, a, h), d, b, g) <==>
              (if d == c && b == a then g == h else At(voice, d, b, g))
  {
    var next := Seated(voice, c, a, h);
    forall d | d in next
      ensures next[d] != map[]
    {
      if d == c {
        assert a in next[c];
      }
    }
  }

  lemma SeatedKeeps(connections: Registry, voice: Rooms, c: ChannelId, a: AccountId, h: Handle)
    requires VoiceOk(connections, voice) && Connected(connections, a, h)
    requires forall d :: In(voice, d, a) ==> d == c
    ensures VoiceOk(connections, Seated(voice, c, a, h))
  {
    var next := Seated(voice, c, a, h);
    SeatedSeats(voice, c, a, h);
    hide Seated, Connected;
    forall d, b | In(next, d, b)
      ensures (d == c && b == a && next[d][b] == h) || (In(voice, d, b) && next[d][b] == voice[d][b])
    {
      assert At(next, d, b, next[d][b]);
    }
    forall b
      ensures OneRoom(next, b)
    {
      assert OneRoom(voice, b);
    }
  }
}

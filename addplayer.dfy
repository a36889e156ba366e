/** The add-player dialog (src/components/AddPlayerDialog.tsx): the friend
    selection toggle, the batch add of the selected friends and the guest
    form. Its callbacks are the setup screen's `handleAddPlayer` and
    `setAddPlayerOpen`. */
module AddPlayer {

  import opened Wrappers
  import opened Roster
  import Setup

  /** An entry of the friends list. */
  datatype FriendRecord = FriendRecord(id: string, name: string)

  /** The hard-coded friends list of the dialog. */
  const MockFriends: seq<FriendRecord> := [
    FriendRecord("1", "Alice Johnson"),
    FriendRecord("2", "Bob Smith"),
    FriendRecord("3", "Charlie Brown"),
    FriendRecord("4", "Diana Prince")
  ]

  /** `friends.find(f => f.id === id)`: the first friend with that id. */
  function FindFriend(friends: seq<FriendRecord>, id: string): (r: Option<FriendRecord>)
    ensures r.Some? ==> r.value in friends && r.value.id == id
    ensures r.None? <==> forall i | 0 <= i < |friends| :: friends[i].id != id
  {
    if friends == [] then None
    else if friends[0].id == id then Some(friends[0])
    else FindFriend(friends[1..], id)
  }

  /** The friend found is the first one with that id. */
  lemma {:induction false} FindFriendIsFirst(friends: seq<FriendRecord>, id: string)
    ensures var r := FindFriend(friends, id);
      r.Some? ==> exists i | 0 <= i < |friends| ::
                    friends[i] == r.value && forall j | 0 <= j < i :: friends[j].id != id
  {
    if friends != [] {
      if friends[0].id == id {
        assert friends[0] == FindFriend(friends, id).value;
      } else {
        FindFriendIsFirst(friends[1..], id);
        FirstMatchShift(friends, id, FindFriend(friends[1..], id));
      }
    }
  }

  /** A first match in the tail, behind a head that does not match, is the
      first match of the whole list. */
  lemma FirstMatchShift(friends: seq<FriendRecord>, id: string, r: Option<FriendRecord>)
    requires |friends| > 0 && friends[0].id != id
    requires r.Some? ==> exists i | 0 <= i < |friends[1..]| ::
               friends[1..][i] == r.value && forall j | 0 <= j < i :: friends[1..][j].id != id
    ensures r.Some? ==> exists i | 0 <= i < |friends| ::
              friends[i] == r.value && forall j | 0 <= j < i :: friends[j].id != id
  {
    if r.Some? {
      var i :| 0 <= i < |friends[1..]| && friends[1..][i] == r.value
               && forall j | 0 <= j < i :: friends[1..][j].id != id;
      assert friends[i + 1] == r.value;
      forall j | 0 <= j < i + 1 ensures friends[j].id != id {
        if j > 0 { assert friends[j] == friends[1..][j - 1]; }
      }
    }
  }

  /** `s.filter(x => x !== id)`. */
  function Without(s: seq<string>, id: string): (r: seq<string>)
    ensures forall x :: x in r <==> x in s && x != id
    ensures id !in s ==> r == s
  {
    if s == [] then []
    else (if s[0] == id then [] else [s[0]]) + Without(s[1..], id)
  }

  /** The selection after `toggleFriend`: filtered out when present, appended when absent. */
  function Toggle(selected: seq<string>, id: string): seq<string>
  {
    if id in selected then Without(selected, id) else selected + [id]
  }

  predicate Distinct(s: seq<string>)
  {
    forall i, j | 0 <= i < j < |s| :: s[i] != s[j]
  }

  /** Toggling flips the membership of that id and of no other. */
  lemma ToggleMembership(selected: seq<string>, id: string)
    ensures id in Toggle(selected, id) <==> id !in selected
    ensures forall x | x != id :: x in Toggle(selected, id) <==> x in selected
  {
  }

  /** Toggling twice restores the membership of every id, and restores the
      selection itself when the id was not selected. */
  lemma ToggleTwice(selected: seq<string>, id: string)
    ensures forall x :: x in Toggle(Toggle(selected, id), id) <==> x in selected
    ensures id !in selected ==> Toggle(Toggle(selected, id), id) == selected
  {
    if id !in selected {
      assert id in selected + [id];
      WithoutAppend(selected, [id], id);
      assert Without([id], id) == [];
    }
  }

  lemma {:induction false} WithoutAppend(a: seq<string>, b: seq<string>, id: string)
    ensures Without(a + b, id) == Without(a, id) + Without(b, id)
  {
    if a == [] {
      assert a + b == b;
    } else {
      assert (a + b)[1..] == a[1..] + b;
      WithoutAppend(a[1..], b, id);
    }
  }

  lemma {:induction false} WithoutDistinct(s: seq<string>, id: string)
    requires Distinct(s)
    ensures Distinct(Without(s, id))
  {
    if s != [] {
      assert Distinct(s[1..]) by {
        forall i, j | 0 <= i < j < |s[1..]| ensures s[1..][i] != s[1..][j] {
          assert s[1..][i] == s[i + 1] && s[1..][j] == s[j + 1];
        }
      }
      WithoutDistinct(s[1..], id);
      assert s[0] !in s[1..];
    }
  }

  /** A selection without duplicates stays without duplicates. */
  lemma ToggleKeepsDistinct(selected: seq<string>, id: string)
    requires Distinct(selected)
    ensures Distinct(Toggle(selected, id))
  {
    if id in selected {
      WithoutDistinct(selected, id);
    }
  }

  /** The entries `handleAddFriends` emits: one per selected id found in the
      friends list, in selection order; unknown ids are skipped. */
  function FriendPlayers(friends: seq<FriendRecord>, selected: seq<string>): (r: seq<Profile>)
    ensures |r| <= |selected|
    ensures forall p | p in r :: p.kind == Friend
  {
    if selected == [] then []
    else FriendEntry(friends, selected[0]) + FriendPlayers(friends, selected[1..])
  }

  /** The entry for one selected id: `friend-<id>` with the friend's name, or nothing. */
  function FriendEntry(friends: seq<FriendRecord>, id: string): (r: seq<Profile>)
    ensures FindFriend(friends, id).None? ==> r == []
    ensures FindFriend(friends, id).Some? ==>
              r == [Profile("friend-" + id, FindFriend(friends, id).value.name, Friend)]
  {
    match FindFriend(friends, id)
    case Some(f) => [Profile("friend-" + id, f.name, Friend)]
    case None => []
  }

  /** Emission follows the selection order. */
  lemma {:induction false} FriendPlayersAppend(friends: seq<FriendRecord>, a: seq<string>, b: seq<string>)
    ensures FriendPlayers(friends, a + b) == FriendPlayers(friends, a) + FriendPlayers(friends, b)
  {
    if a == [] {
      assert a + b == b;
    } else {
      assert (a + b)[1..] == a[1..] + b;
      FriendPlayersAppend(friends, a[1..], b);
    }
  }

  /** When every selected id is a friend, entry i is `friend-<id i>`, named after that friend. */
  lemma {:induction false} FriendPlayersAllKnown(friends: seq<FriendRecord>, selected: seq<string>)
    requires forall id | id in selected :: FindFriend(friends, id).Some?
    ensures |FriendPlayers(friends, selected)| == |selected|
    ensures forall i | 0 <= i < |selected| ::
              FriendPlayers(friends, selected)[i] ==
              Profile("friend-" + selected[i], FindFriend(friends, selected[i]).value.name, Friend)
  {
    if selected != [] {
      FriendPlayersAllKnown(friends, selected[1..]);
      assert FindFriend(friends, selected[0]).Some?;
    }
  }

  /** The characters `String.prototype.trim` removes. */
  predicate IsWhitespace(c: char)
  {
    || c == ' ' || c == '\t' || c == '\n' || c == '\r'
    || c == '\U{000B}' || c == '\U{000C}' || c == '\U{00A0}' || c == '\U{1680}'
    || ('\U{2000}' <= c <= '\U{200A}')
    || c == '\U{2028}' || c == '\U{2029}' || c == '\U{202F}' || c == '\U{205F}'
    || c == '\U{3000}' || c == '\U{FEFF}'
  }

  /** `name.trim()` is the empty string. */
  predicate Blank(name: string)
  {
    forall i | 0 <= i < |name| :: IsWhitespace(name[i])
  }

  /** The calls of `handleAddPlayer` made during one click, as written: each
      call closes over the same render's roster `snapshot` and sets the roster
      to that snapshot plus its own entry, discarding what `roster`, the value
      set by the earlier calls, holds. Only the last call's entry survives. */
  function BatchedAdds(snapshot: seq<Profile>, roster: seq<Profile>, added: seq<Profile>): (r: seq<Profile>)
    ensures added == [] ==> r == roster
    ensures added != [] ==> r == snapshot + [added[|added| - 1]]
    decreases |added|
  {
    if added == [] then roster
    else BatchedAdds(snapshot, snapshot + [added[0]], added[1..])
  }

  /** The roster after one click that adds `added` to `players`, as written. */
  function RosterAfterBatchedAdds(players: seq<Profile>, added: seq<Profile>): (r: seq<Profile>)
    ensures added == [] ==> r == players
    ensures added != [] ==> r == players + [added[|added| - 1]]
    ensures |added| >= 2 ==> added[0] !in players && added[0] != added[|added| - 1] ==> added[0] !in r
  {
    BatchedAdds(players, players, added)
  }

  /** Selecting Alice and Bob and adding them to an empty roster leaves only Bob. */
  lemma BatchedAddsDropAllButLast()
    ensures var added := FriendPlayers(MockFriends, ["1", "2"]);
      && added == [Profile("friend-1", "Alice Johnson", Friend), Profile("friend-2", "Bob Smith", Friend)]
      && RosterAfterBatchedAdds([], added) == [Profile("friend-2", "Bob Smith", Friend)]
      && added[0] !in RosterAfterBatchedAdds([], added)
  {
    assert FindFriend(MockFriends, "1") == Some(FriendRecord("1", "Alice Johnson"));
    assert FindFriend(MockFriends, "2") == Some(FriendRecord("2", "Bob Smith"));
    assert "friend-" + "1" == "friend-1" && "friend-" + "2" == "friend-2";
    assert ["1", "2"][1..] == ["2"];
    assert ["2"][1..] == [];
    assert FriendPlayers(MockFriends, ["2"]) == FriendEntry(MockFriends, "2");
  }

  /** Extending the selection by one id extends the entries by that id's entry. */
  lemma FriendPlayersSnoc(friends: seq<FriendRecord>, selected: seq<string>, i: int)
    requires 0 <= i < |selected|
    ensures FriendPlayers(friends, selected[..i + 1])
            == FriendPlayers(friends, selected[..i]) + FriendEntry(friends, selected[i])
  {
    FriendPlayersAppend(friends, selected[..i], [selected[i]]);
    assert selected[..i + 1] == selected[..i] + [selected[i]];
    assert [selected[i]][1..] == [];
  }

  /** The dialog's component state. */
  class AddPlayerDialog {
    var guestName: string
    var selectedFriends: seq<string>
    const friends: seq<FriendRecord>

    constructor ()
      ensures guestName == "" && selectedFriends == [] && friends == MockFriends
    {
      guestName := "";
      selectedFriends := [];
      friends := MockFriends;
    }

    /** The guest name field. */
    method SetGuestName(name: string)
      modifies this`guestName
      ensures guestName == name
    {
      guestName := name;
    }

    /** `handleAddGuest`: a blank name does nothing; otherwise the untrimmed
        name is added as a guest whose id is `guest-` and the clock reading
        `now`, the field is cleared and the dialog closes. */
    method HandleAddGuest(setup: Setup.MatchSetup, now: nat)
      modifies this`guestName, setup`players, setup`addPlayerOpen
      ensures Blank(old(guestName)) ==>
        && guestName == old(guestName)
        && setup.players == old(setup.players)
        && setup.addPlayerOpen == old(setup.addPlayerOpen)
      ensures !Blank(old(guestName)) ==>
        && setup.players == old(setup.players) + [Profile("guest-" + Setup.DecimalString(now), old(guestName), Guest)]
        && guestName == ""
        && !setup.addPlayerOpen
    {
      if !Blank(guestName) {
        setup.AddPlayer(Profile("guest-" + Setup.DecimalString(now), guestName, Guest));
        guestName := "";
        setup.SetAddPlayerOpen(false);
      }
    }

    /** `toggleFriend`. */
    method ToggleFriend(id: string)
      modifies this`selectedFriends
      ensures selectedFriends == Toggle(old(selectedFriends), id)
    {
      if id in selectedFriends {
        selectedFriends := Without(selectedFriends, id);
      } else {
        selectedFriends := selectedFriends + [id];
      }
    }

    /** `handleAddFriends`, with each added entry seen by the next one: the
        roster grows by one entry per selected friend, in selection order;
        then the selection is emptied and the dialog closes. */
    method HandleAddFriends(setup: Setup.MatchSetup)
      modifies this`selectedFriends, setup`players, setup`addPlayerOpen
      ensures setup.players == old(setup.players) + FriendPlayers(friends, old(selectedFriends))
      ensures selectedFriends == [] && !setup.addPlayerOpen
    {
      var selected := selectedFriends;
      ghost var start := setup.players;
      for i := 0 to |selected|
        invariant setup.players == start + FriendPlayers(friends, selected[..i])
      {
        ghost var before := setup.players;
        var friend := FindFriend(friends, selected[i]);
        if friend.Some? {
          setup.AddPlayer(Profile("friend-" + selected[i], friend.value.name, Friend));
        }
        assert setup.players == before + FriendEntry(friends, selected[i]);
        FriendPlayersSnoc(friends, selected, i);
      }
      assert selected[..|selected|] == selected;
      selectedFriends := [];
      setup.SetAddPlayerOpen(false);
    }
  }
}

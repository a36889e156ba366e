/** The teams view of the setup screen (src/components/TeamsView.tsx): the
    greedy placement of roster entries that are in neither team, and the
    move and remove buttons. */
module Teams {

  import opened Roster
  import Setup

  /** `unassignedPlayers`: the roster entries whose id is in neither team, in roster order. */
  function Unassigned(players: seq<Profile>, team1: seq<Profile>, team2: seq<Profile>): (r: seq<Profile>)
    ensures |r| <= |players|
    ensures forall p :: p in r <==> p in players && !HasId(team1, p.id) && !HasId(team2, p.id)
  {
    if players == [] then []
    else
      (if !HasId(team1, players[0].id) && !HasId(team2, players[0].id) then [players[0]] else [])
      + Unassigned(players[1..], team1, team2)
  }

  /** The filter keeps roster order: it distributes over concatenation. */
  lemma {:induction false} UnassignedAppend(a: seq<Profile>, b: seq<Profile>, team1: seq<Profile>, team2: seq<Profile>)
    ensures Unassigned(a + b, team1, team2) == Unassigned(a, team1, team2) + Unassigned(b, team1, team2)
  {
    if a == [] {
      assert a + b == b;
    } else {
      assert (a + b)[1..] == a[1..] + b;
      UnassignedAppend(a[1..], b, team1, team2);
    }
  }

  /** The placement rule of the `forEach`: each entry in turn joins team 1
      when team 1 is not larger than team 2 at that moment, and team 2 otherwise. */
  function Greedy(team1: seq<Profile>, team2: seq<Profile>, pending: seq<Profile>): (r: (seq<Profile>, seq<Profile>))
    ensures team1 <= r.0 && team2 <= r.1
    ensures |r.0| + |r.1| == |team1| + |team2| + |pending|
    ensures forall p | p in pending :: p in r.0 || p in r.1
    ensures forall p | p in r.0 :: p in team1 || p in pending
    ensures forall p | p in r.1 :: p in team2 || p in pending
    ensures 0 <= |team1| - |team2| <= 1 ==> 0 <= |r.0| - |r.1| <= 1
    decreases |pending|
  {
    if pending == [] then (team1, team2)
    else if |team1| <= |team2| then
      var r := Greedy(team1 + [pending[0]], team2, pending[1..]);
      assert r.0[|team1|] == pending[0];
      r
    else
      var r := Greedy(team1, team2 + [pending[0]], pending[1..]);
      assert r.1[|team2|] == pending[0];
      r
  }

  /** The `forEach` loop over the unassigned entries, pushing into copies of the two teams. */
  method Distribute(team1: seq<Profile>, team2: seq<Profile>, unassigned: seq<Profile>)
    returns (newTeam1: seq<Profile>, newTeam2: seq<Profile>)
    ensures (newTeam1, newTeam2) == Greedy(team1, team2, unassigned)
  {
    newTeam1, newTeam2 := team1, team2;
    for i := 0 to |unassigned|
      invariant Greedy(newTeam1, newTeam2, unassigned[i..]) == Greedy(team1, team2, unassigned)
    {
      assert unassigned[i..][1..] == unassigned[i + 1..];
      if |newTeam1| <= |newTeam2| {
        newTeam1 := newTeam1 + [unassigned[i]];
      } else {
        newTeam2 := newTeam2 + [unassigned[i]];
      }
    }
    assert unassigned[|unassigned|..] == [];
  }

  /** After placement every roster entry has its id in one of the two teams. */
  lemma GreedyCoversRoster(players: seq<Profile>, team1: seq<Profile>, team2: seq<Profile>)
    ensures var r := Greedy(team1, team2, Unassigned(players, team1, team2));
      forall p | p in players :: HasId(r.0, p.id) || HasId(r.1, p.id)
  {
    var r := Greedy(team1, team2, Unassigned(players, team1, team2));
    forall p | p in players
      ensures HasId(r.0, p.id) || HasId(r.1, p.id)
    {
      if HasId(team1, p.id) {
        assert r.0 == team1 + r.0[|team1|..];
        HasIdPrefix(team1, r.0[|team1|..], p.id);
      } else if HasId(team2, p.id) {
        assert r.1 == team2 + r.1[|team2|..];
        HasIdPrefix(team2, r.1[|team2|..], p.id);
      } else {
        assert p in Unassigned(players, team1, team2);
        if p in r.0 {
          var i :| 0 <= i < |r.0| && r.0[i] == p;
          assert r.0[i].id == p.id;
        } else {
          var i :| 0 <= i < |r.1| && r.1[i] == p;
          assert r.1[i].id == p.id;
        }
      }
    }
  }

  /** Nobody is unassigned once every roster id is in a team. */
  lemma NoneUnassigned(players: seq<Profile>, team1: seq<Profile>, team2: seq<Profile>)
    requires forall p | p in players :: HasId(team1, p.id) || HasId(team2, p.id)
    ensures Unassigned(players, team1, team2) == []
  {
  }

  /** The two team lists of the component. */
  class TeamsView {
    var team1: seq<Profile>
    var team2: seq<Profile>

    constructor ()
      ensures team1 == [] && team2 == []
    {
      team1, team2 := [], [];
    }

    /** The render-time auto-assignment: when some roster entry is in
        neither team, place the unassigned entries greedily. Afterwards no
        entry is unassigned, so a second pass changes nothing. */
    method AutoAssign(players: seq<Profile>)
      modifies this
      ensures (team1, team2) == Greedy(old(team1), old(team2), Unassigned(players, old(team1), old(team2)))
      ensures old(team1) <= team1 && old(team2) <= team2
      ensures forall p | p in players :: HasId(team1, p.id) || HasId(team2, p.id)
      ensures Unassigned(players, team1, team2) == []
    {
      var unassigned := Unassigned(players, team1, team2);
      GreedyCoversRoster(players, team1, team2);
      if |unassigned| > 0 {
        var newTeam1, newTeam2 := Distribute(team1, team2, unassigned);
        team1, team2 := newTeam1, newTeam2;
        NoneUnassigned(players, team1, team2);
      }
    }

    /** `moveToTeam2`: drop the id from team 1 and append the entry to team 2. */
    method MoveToTeam2(player: Profile)
      modifies this
      ensures team1 == RemoveId(old(team1), player.id)
      ensures team2 == old(team2) + [player]
    {
      team1 := RemoveId(team1, player.id);
      team2 := team2 + [player];
    }

    /** `moveToTeam1`: drop the id from team 2 and append the entry to team 1. */
    method MoveToTeam1(player: Profile)
      modifies this
      ensures team2 == RemoveId(old(team2), player.id)
      ensures team1 == old(team1) + [player]
    {
      team2 := RemoveId(team2, player.id);
      team1 := team1 + [player];
    }

    /** `handleRemove`: drop the id from both teams and hand it to the setup
        screen's `handleRemovePlayer`. */
    method HandleRemove(id: string, setup: Setup.MatchSetup)
      modifies this, setup`players
      ensures team1 == RemoveId(old(team1), id) && team2 == RemoveId(old(team2), id)
      ensures setup.players == RemoveId(old(setup.players), id)
    {
      team1 := RemoveId(team1, id);
      team2 := RemoveId(team2, id);
      setup.RemovePlayer(id);
    }
  }
}

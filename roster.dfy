/** The roster entry shared by the setup screen, the teams view, the add-player
    dialog and the match screen, and the filter-by-id update that the setup
    screen and the teams view use. */
module Roster {

  datatype PlayerKind = Friend | Guest

  /** A roster entry: `{ id, name, type }`. */
  datatype Profile = Profile(id: string, name: string, kind: PlayerKind)

  /** Some entry of `s` carries the id (the `find(t => t.id === id)` test). */
  predicate HasId(s: seq<Profile>, id: string)
  {
    exists i | 0 <= i < |s| :: s[i].id == id
  }

  /** `s.filter(p => p.id !== id)`: every entry with that id goes, the others stay in order. */
  function RemoveId(s: seq<Profile>, id: string): (r: seq<Profile>)
    ensures |r| <= |s|
    ensures forall p :: p in r <==> p in s && p.id != id
    ensures !HasId(r, id)
  {
    if s == [] then []
    else (if s[0].id == id then [] else [s[0]]) + RemoveId(s[1..], id)
  }

  /** Filtering distributes over concatenation: the survivors keep their relative order. */
  lemma {:induction false} RemoveIdAppend(a: seq<Profile>, b: seq<Profile>, id: string)
    ensures RemoveId(a + b, id) == RemoveId(a, id) + RemoveId(b, id)
  {
    if a == [] {
      assert a + b == b;
    } else {
      assert (a + b)[1..] == a[1..] + b;
      RemoveIdAppend(a[1..], b, id);
    }
  }

  /** Removing an id nobody carries leaves the list exactly as it was. */
  lemma {:induction false} RemoveAbsentId(s: seq<Profile>, id: string)
    requires !HasId(s, id)
    ensures RemoveId(s, id) == s
  {
    if s != [] {
      assert s[0].id != id;
      assert !HasId(s[1..], id) by {
        forall i | 0 <= i < |s| - 1
          ensures s[1..][i].id != id
        {
          assert s[1..][i] == s[i + 1];
        }
      }
      RemoveAbsentId(s[1..], id);
      assert [s[0]] + s[1..] == s;
    }
  }

  /** Extending a list at the end keeps every id it already carried. */
  lemma HasIdPrefix(s: seq<Profile>, t: seq<Profile>, id: string)
    requires HasId(s, id)
    ensures HasId(s + t, id)
  {
    var i :| 0 <= i < |s| && s[i].id == id;
    assert (s + t)[i].id == id;
  }
}

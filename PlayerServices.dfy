/**
 * The registry of signed-in players, an `ArrayList<Player>` kept in the
 * order players were added. The list methods it uses compare players with
 * `Player.equals`, that is by name.
 */
module Services {
  import opened Lists
  import opened Players

  /** The names of `s`, in order. */
  function Names(s: seq<Player>): (names: seq<string>)
    ensures |names| == |s| && forall i :: 0 <= i < |s| ==> names[i] == s[i].name
  {
    if s == [] then [] else [s[0].name] + Names(s[1..])
  }

  /** `indexOf` under `Player.equals`: the first position of a player named `name`, or -1. */
  function NameIndex(s: seq<Player>, name: string): (i: int)
    ensures i == IndexOf(Names(s), name)
    ensures -1 <= i < |s|
    ensures i == -1 <==> forall k :: 0 <= k < |s| ==> s[k].name != name
    ensures 0 <= i ==> s[i].name == name && forall k :: 0 <= k < i ==> s[k].name != name
  {
    if s == [] then -1
    else if s[0].name == name then 0
    else
      var k := NameIndex(s[1..], name);
      assert Names(s) == [s[0].name] + Names(s[1..]);
      if k < 0 then -1 else k + 1
  }

  /** `remove(player)` under `Player.equals`: drops the first player with that name. */
  function RemoveNamed(s: seq<Player>, name: string): (r: seq<Player>)
    ensures |r| == if name in Names(s) then |s| - 1 else |s|
  {
    var i := NameIndex(s, name);
    if i < 0 then s else s[..i] + s[i + 1..]
  }

  /** On names, removing a player is `ArrayList.remove` of the name. */
  lemma RemoveNamedNames(s: seq<Player>, name: string)
    ensures Names(RemoveNamed(s, name)) == RemoveFirst(Names(s), name)
  {
    var i := NameIndex(s, name);
    if 0 <= i {
      var r := s[..i] + s[i + 1..];
      assert Names(r) == RemoveAt(Names(s), i) by {
        forall k | 0 <= k < |r|
          ensures Names(r)[k] == RemoveAt(Names(s), i)[k]
        {
          if k < i { assert r[k] == s[k]; } else { assert r[k] == s[k + 1]; }
        }
      }
    }
  }

  /** Only the first player named `name` goes; the others keep their order. */
  lemma RemoveNamedSpec(s: seq<Player>, name: string)
    ensures (forall k :: 0 <= k < |s| ==> s[k].name != name) ==> RemoveNamed(s, name) == s
    ensures forall i :: 0 <= i < |s| && s[i].name == name &&
                        (forall k :: 0 <= k < i ==> s[k].name != name) ==>
                        RemoveNamed(s, name) == s[..i] + s[i + 1..]
  {
  }

  /** Adding a player whose name is new and then removing that name restores the list. */
  lemma RemoveNamedAppended(s: seq<Player>, p: Player)
    requires p.name !in Names(s)
    ensures RemoveNamed(s + [p], p.name) == s
  {
    assert forall k :: 0 <= k < |s| ==> s[k].name == Names(s)[k];
    assert (s + [p])[|s|] == p;
    assert NameIndex(s + [p], p.name) == |s|;
    assert (s + [p])[..|s|] == s;
  }

  class PlayerServices {
    var playerList: seq<Player>

    constructor ()
      ensures playerList == []
    {
      playerList := [];
    }

    /** Nothing left to end: the session state it once cleared is gone. */
    method EndSession()
      ensures unchanged(this)
    {
    }

    /** `add`: the player goes to the end of the list. */
    method AddPlayer(player: Player)
      modifies this
      ensures playerList == old(playerList) + [player]
      ensures NumPlayers() == old(NumPlayers()) + 1
    {
      playerList := playerList + [player];
    }

    /** `remove`: drops the first player with the same name, if any. */
    method RemovePlayer(player: Player)
      modifies this
      ensures playerList == RemoveNamed(old(playerList), player.name)
    {
      playerList := RemoveNamed(playerList, player.name);
    }

    /** `contains`: is a player with this name already in the list? */
    function IsAvailable(player: Player): (b: bool)
      reads this
      ensures b <==> player.name in Names(playerList)
    {
      NameIndex(playerList, player.name) >= 0
    }

    /** The first player named `username`, or null when there is none. */
    method GetPlayer(username: string) returns (p: Player?)
      ensures p == null <==> forall k :: 0 <= k < |playerList| ==> playerList[k].name != username
      ensures p != null ==> p == playerList[NameIndex(playerList, username)]
    {
      var i := 0;
      while i < |playerList|
        invariant 0 <= i <= |playerList|
        invariant forall k :: 0 <= k < i ==> playerList[k].name != username
      {
        var player := playerList[i];
        if player.GetName() == username {
          return player;
        }
        i := i + 1;
      }
      return null;
    }

    /** `size()`: how many players are signed in. */
    function NumPlayers(): (n: nat)
      reads this
      ensures n == |playerList|
    {
      |playerList|
    }

    /** `getPlayerList`: a new list with the same players in the same order. */
    method GetPlayerList() returns (ret: seq<Player>)
      ensures ret == playerList
    {
      ret := playerList;
    }
  }
}

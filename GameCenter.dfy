/**
 * The application-wide registry: the list of signed-in players, which is
 * shared with whoever created the centre, and the list of matches being
 * played.
 */
module Center {
  import opened Lists
  import opened Players
  import opened Matches

  /** An `ArrayList<Player>` passed around by reference. */
  class PlayerList {
    var items: seq<Player>

    constructor (items: seq<Player>)
      ensures this.items == items
    {
      this.items := items;
    }
  }

  class GameCenter {
    /** The caller's list itself, not a copy: additions are seen by every holder. */
    const players: PlayerList
    var gameList: seq<Match>

    constructor (players: PlayerList)
      ensures this.players == players && gameList == []
    {
      this.players := players;
      gameList := [];
    }

    /** Appends `player` to the shared list and hands back that same list. */
    method AddPlayer(player: Player) returns (list: PlayerList)
      modifies players
      ensures list == players && players.items == old(players.items) + [player]
    {
      players.items := players.items + [player];
      list := players;
    }

    /** The shared list itself. */
    function GetPlayers(): (list: PlayerList)
      ensures list == players
    {
      players
    }

    /** Creates a match for the two names and appends it to the matches in play. */
    method GetMatch(player1: string, player2: string) returns (m: Match)
      modifies this
      ensures fresh(m) && m.player1 == player1 && m.player2 == player2
      ensures m.piecesRemoved == []
      ensures gameList == old(gameList) + [m] && players.items == old(players.items)
    {
      m := new Match(player1, player2);
      gameList := gameList + [m];
    }

    /** `remove(match)`: drops the first occurrence of `m`, if any; the others keep their order. */
    method EndMatch(m: Match)
      modifies this
      ensures gameList == RemoveFirst(old(gameList), m)
    {
      gameList := RemoveFirst(gameList, m);
    }
  }
}

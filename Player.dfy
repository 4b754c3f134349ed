/**
 * A user of the application: a name that never changes, a record of games
 * played, won and lost kept in Java `int`s, a status, and whether the user
 * has just left a match.
 */
module Players {

  // ---------------------------------------------------------------------
  // Java `int` arithmetic

  const TWO_32: int := 0x1_0000_0000
  const TWO_31: int := 0x8000_0000

  newtype int32 = x: int | -0x8000_0000 <= x < 0x8000_0000

  /** The `int` that Java's two's-complement arithmetic leaves for the exact value `x`. */
  function Wrap(x: int): int32 {
    ((x + TWO_31) % TWO_32 - TWO_31) as int32
  }

  /** Euclidean remainders: a value written as `k * 2^32 + r` with `0 <= r < 2^32` leaves `r`. */
  lemma ModUnique(y: int, k: int, r: int)
    requires y == k * TWO_32 + r && 0 <= r < TWO_32
    ensures y % TWO_32 == r
  {
    var k', r' := y / TWO_32, y % TWO_32;
    assert (k - k') * TWO_32 == r' - r;
  }

  /** Values that fit are kept as they are. */
  lemma WrapInRange(x: int)
    requires -TWO_31 <= x < TWO_31
    ensures Wrap(x) as int == x
  {
    ModUnique(x + TWO_31, 0, x + TWO_31);
  }

  /** One past the largest `int` is the smallest. */
  lemma WrapOverflow()
    ensures Wrap(TWO_31 - 1 + 1) as int == -TWO_31
  {
    ModUnique(TWO_32, 1, 0);
  }

  /** Wrapping an intermediate result does not change the final one. */
  lemma WrapAdd(a: int, b: int)
    ensures Wrap(Wrap(a) as int + b) == Wrap(a + b)
  {
    var q, r := (a + TWO_31) / TWO_32, (a + TWO_31) % TWO_32;
    var y := a + b + TWO_31;
    var q', r' := y / TWO_32, y % TWO_32;
    assert Wrap(a) as int + b + TWO_31 == r + b;
    assert r + b == (q' - q) * TWO_32 + r';
    ModUnique(r + b, q' - q, r');
  }

  /** `games == won + lost`, in the source's `int` arithmetic. */
  predicate Balanced(games: int32, won: int32, lost: int32) {
    games == Wrap(won as int + lost as int)
  }

  /** `addWon` (one more game and one more win) keeps the record balanced. */
  lemma WonKeepsBalance(games: int32, won: int32, lost: int32)
    requires Balanced(games, won, lost)
    ensures Balanced(Wrap(games as int + 1), Wrap(won as int + 1), lost)
  {
    WrapAdd(won as int + lost as int, 1);
    WrapAdd(won as int + 1, lost as int);
  }

  /** `addLost` (one more game and one more loss) keeps the record balanced. */
  lemma LostKeepsBalance(games: int32, won: int32, lost: int32)
    requires Balanced(games, won, lost)
    ensures Balanced(Wrap(games as int + 1), won, Wrap(lost as int + 1))
  {
    WrapAdd(won as int + lost as int, 1);
    WrapAdd(lost as int + 1, won as int);
    assert won as int + lost as int + 1 == lost as int + 1 + won as int;
  }

  // ---------------------------------------------------------------------
  // User names

  /** The characters of the class `[a-zA-Z0-9 ]`. */
  predicate NameChar(c: char) {
    ('a' <= c <= 'z') || ('A' <= c <= 'Z') || ('0' <= c <= '9') || c == ' '
  }

  /** `s.matches("^[a-zA-Z0-9 ]+$")`: one character of the class, then zero or more. */
  predicate MatchesNamePattern(s: string)
    decreases |s|
  {
    |s| > 0 && NameChar(s[0]) && (|s| == 1 || MatchesNamePattern(s[1..]))
  }

  /** The pattern accepts exactly the non-empty strings of allowed characters. */
  lemma {:induction false} MatchesNamePatternSpec(s: string)
    ensures MatchesNamePattern(s) <==> |s| > 0 && forall i :: 0 <= i < |s| ==> NameChar(s[i])
    decreases |s|
  {
    if |s| > 1 {
      MatchesNamePatternSpec(s[1..]);
      assert forall i :: 1 <= i < |s| ==> s[i] == s[1..][i - 1];
    }
  }

  datatype Status = waiting | challenged | ingame

  class Player {
    const name: string
    var games: int32
    var won: int32
    var lost: int32
    var status: Status
    var recentlyInGame: bool

    /** A new user: no games, waiting, not recently in a game. */
    constructor (name: string)
      ensures this.name == name && games == 0 && won == 0 && lost == 0
      ensures status == waiting && !recentlyInGame
      ensures Balanced(games, won, lost)
    {
      this.name := name;
      games := 0;
      won := 0;
      lost := 0;
      status := waiting;
      recentlyInGame := false;
    }

    /** A user with a stored record, taken as given. */
    constructor WithRecord(name: string, games: int32, won: int32, lost: int32)
      ensures this.name == name && this.games == games && this.won == won && this.lost == lost
      ensures status == waiting && !recentlyInGame
    {
      this.name := name;
      this.games := games;
      this.won := won;
      this.lost := lost;
      status := waiting;
      recentlyInGame := false;
    }

    /** The name given at construction, which never changes. */
    function GetName(): (n: string)
      ensures n == name
    {
      name
    }

    function GetStatus(): (s: Status)
      reads this
      ensures s == status
    {
      status
    }

    /** Has the user just left a match? */
    function WasRecentlyInGame(): (b: bool)
      reads this
      ensures b == recentlyInGame
    {
      recentlyInGame
    }

    /** One more game played and won; `lost` is untouched. */
    method AddWon()
      modifies this
      ensures games == Wrap(old(games) as int + 1) && won == Wrap(old(won) as int + 1)
      ensures lost == old(lost) && status == old(status) && recentlyInGame == old(recentlyInGame)
      ensures old(Balanced(games, won, lost)) ==> Balanced(games, won, lost)
      ensures old(games) < 0x7fff_ffff ==> games as int == old(games) as int + 1
      ensures old(won) < 0x7fff_ffff ==> won as int == old(won) as int + 1
      ensures old(games) == 0x7fff_ffff ==> games as int == -0x8000_0000
      ensures old(won) == 0x7fff_ffff ==> won as int == -0x8000_0000
    {
      ghost var g, w, l := games, won, lost;
      games := Wrap(games as int + 1);
      won := Wrap(won as int + 1);
      if g < 0x7fff_ffff {
        WrapInRange(g as int + 1);
      }
      if w < 0x7fff_ffff {
        WrapInRange(w as int + 1);
      }
      if g == 0x7fff_ffff || w == 0x7fff_ffff {
        WrapOverflow();
      }
      if Balanced(g, w, l) {
        WonKeepsBalance(g, w, l);
      }
    }

    /** One more game played and lost; `won` is untouched. */
    method AddLost()
      modifies this
      ensures games == Wrap(old(games) as int + 1) && lost == Wrap(old(lost) as int + 1)
      ensures won == old(won) && status == old(status) && recentlyInGame == old(recentlyInGame)
      ensures old(Balanced(games, won, lost)) ==> Balanced(games, won, lost)
      ensures old(games) < 0x7fff_ffff ==> games as int == old(games) as int + 1
      ensures old(lost) < 0x7fff_ffff ==> lost as int == old(lost) as int + 1
      ensures old(games) == 0x7fff_ffff ==> games as int == -0x8000_0000
      ensures old(lost) == 0x7fff_ffff ==> lost as int == -0x8000_0000
    {
      ghost var g, w, l := games, won, lost;
      games := Wrap(games as int + 1);
      lost := Wrap(lost as int + 1);
      if g < 0x7fff_ffff {
        WrapInRange(g as int + 1);
      }
      if l < 0x7fff_ffff {
        WrapInRange(l as int + 1);
      }
      if g == 0x7fff_ffff || l == 0x7fff_ffff {
        WrapOverflow();
      }
      if Balanced(g, w, l) {
        LostKeepsBalance(g, w, l);
      }
    }

    method ChangeRecentlyInGame(b: bool)
      modifies this
      ensures WasRecentlyInGame() == b
      ensures games == old(games) && won == old(won) && lost == old(lost) && status == old(status)
    {
      recentlyInGame := b;
    }

    method ChangeStatus(s: Status)
      modifies this
      ensures GetStatus() == s
      ensures games == old(games) && won == old(won) && lost == old(lost)
      ensures recentlyInGame == old(recentlyInGame)
    {
      status := s;
    }

    /** True unless the name is non-empty and made only of letters, digits and spaces. */
    function ContainsInvalidCharacter(): (b: bool)
      ensures !b <==> |name| > 0 && forall i :: 0 <= i < |name| ==> NameChar(name[i])
    {
      MatchesNamePatternSpec(name);
      !MatchesNamePattern(name)
    }

    /** In a game or challenged to one: every status but `waiting`. */
    function IsInGame(): (b: bool)
      reads this
      ensures b <==> status != waiting
    {
      status == ingame || status == challenged
    }

    /** `equals`: another player with the same name; never a missing one. */
    function Equals(o: Player?): (b: bool)
      ensures b <==> o != null && o.name == name
    {
      o != null && o.GetName() == GetName()
    }
  }

  /** `equals` is an equivalence on players. */
  lemma EqualsEquivalence(p: Player, q: Player, r: Player)
    ensures p.Equals(p)
    ensures p.Equals(q) <==> q.Equals(p)
    ensures p.Equals(q) && q.Equals(r) ==> p.Equals(r)
    ensures !p.Equals(null)
    ensures p.Equals(q) <==> p.name == q.name
  {
  }
}

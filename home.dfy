/**
 * The home screen: the game-setup dialog and what it hands to the game
 * screens (the seek parameters and the clock value), the deep link into a
 * friend game, and the colour of the daily puzzle.
 */
module Home {
  import opened Wrappers
  import opened Text
  import Chess
  import Clock

  /** The colour choices of the dialog's colour tab, by index. */
  const Colors: seq<string> := ["white", "random", "black"]

  /** The scheme prefix of a deep link into a friend game. */
  const DeepLinkScheme: string := "lichess599://"

  /** `COLORS[i]`; outside the list the value is `undefined` and the field is dropped. */
  function ColorAt(i: int): (r: Option<string>)
    ensures r.Some? <==> 0 <= i < 3
    ensures i == 0 ==> r == Some("white")
    ensures i == 1 ==> r == Some("random")
    ensures i == 2 ==> r == Some("black")
  {
    if 0 <= i < |Colors| then Some(Colors[i]) else None
  }

  /**
   * The clock value handed to the game screen: the minutes in seconds for
   * the real-time tab (index 1), the sentinel -1 for the unlimited one.
   */
  function ClockValue(timeIndex: int, totalMinutes: nat): (r: int)
    ensures timeIndex == 1 <==> r >= 0
    ensures timeIndex == 1 ==> r / 60 == totalMinutes && r % 60 == 0
    ensures timeIndex != 1 ==> r == -1
  {
    if timeIndex == 1 then totalMinutes * 60 else -1
  }

  /** The unlimited clock shows the waiting text on the clock of the side to move, and a blank elsewhere. */
  lemma UnlimitedClockWaits(timeIndex: int, totalMinutes: nat, enabled: bool)
    requires timeIndex != 1
    ensures Clock.Display(ClockValue(timeIndex, totalMinutes), enabled) == if enabled then "Waiting for player!" else " "
  {
  }

  /** A real-time clock starts at the chosen minutes and zero seconds. */
  lemma RealTimeClockStarts(totalMinutes: nat, enabled: bool)
    ensures var r := Clock.DisplayTotal(ClockValue(1, totalMinutes), enabled);
      ParseNat(r[..|r| - 3]) == totalMinutes && r[|r| - 2..] == "00"
  {
    var t := ClockValue(1, totalMinutes);
    Clock.DisplayTotalReadsBack(t, enabled);
    assert Clock.Seconds(t) == 0;
  }

  /**
   * With the display as written, a real-time clock of a full hour starts
   * out showing no time at all.
   */
  lemma HourClockShowsZero()
    ensures Clock.Display(ClockValue(1, 60), true) == "00:00"
  {
    Clock.HourWraps();
  }

  /** The seek parameters `create` serialises; numbers the source writes as template strings are decimal strings. */
  datatype PlayConfig = PlayConfig(
    variant: int, timeMode: int, days: string, time: string, increment: string,
    level: string, color: Option<string>, mode: string)

  /** The game screens the home screen navigates to. */
  datatype Screen = PlayerVsAIScreen | PlayerVsFriendScreen

  /** The parameters of a navigation. */
  datatype Params =
    | GameParams(playConfig: PlayConfig, time: int)
    | DeepLink(gameId: string)

  datatype Navigation = Navigate(screen: Screen, params: Params)

  /** The configuration built from the dialog's state. */
  function MakeConfig(colorIndex: int, timeIndex: int, totalMinutes: nat, incrementSeconds: nat, aiLevel: nat): (c: PlayConfig)
    ensures c.variant == 1 && c.timeMode == timeIndex && c.days == "2" && c.mode == "0"
    ensures c.color == ColorAt(colorIndex)
    ensures ParseNat(c.time) == totalMinutes && ParseNat(c.increment) == incrementSeconds && ParseNat(c.level) == aiLevel
  {
    ParseNatToString(totalMinutes);
    ParseNatToString(incrementSeconds);
    ParseNatToString(aiLevel);
    PlayConfig(1, timeIndex, "2", NatToString(totalMinutes), NatToString(incrementSeconds),
               NatToString(aiLevel), ColorAt(colorIndex), "0")
  }

  /** Where `create` goes: the engine screen iff `playVsAI`, with the same parameters either way. */
  function RouteFor(playVsAI: bool, config: PlayConfig, time: int): (r: Navigation)
    ensures r.screen == PlayerVsAIScreen <==> playVsAI
    ensures r.params == GameParams(config, time)
  {
    if playVsAI then Navigate(PlayerVsAIScreen, GameParams(config, time))
    else Navigate(PlayerVsFriendScreen, GameParams(config, time))
  }

  /** The game id of a deep link: the URL with the first occurrence of the scheme removed. */
  function DeepLinkId(url: string): (id: string)
    ensures |id| == if IndexOf(url, DeepLinkScheme).Some? then |url| - |DeepLinkScheme| else |url|
    ensures IndexOf(url, DeepLinkScheme).Some? ==>
      var k := IndexOf(url, DeepLinkScheme).value; k <= |id| && url == id[..k] + DeepLinkScheme + id[k..]
    ensures IndexOf(url, DeepLinkScheme).None? ==> id == url
  {
    RemoveFirst(url, DeepLinkScheme)
  }

  /** A link built from the scheme and an id gives back that id. */
  lemma DeepLinkRoundTrip(id: string)
    ensures DeepLinkId(DeepLinkScheme + id) == id
  {
    RemoveFirstPrefix(DeepLinkScheme, id);
  }

  /** A URL without the scheme is taken as the id itself. */
  lemma DeepLinkWithoutScheme(url: string)
    requires forall j :: !OccursAt(url, DeepLinkScheme, j)
    ensures DeepLinkId(url) == url
  {
    RemoveFirstAbsent(url, DeepLinkScheme);
  }

  class HomeScreen {
    var ready: bool
    var modalDisplayed: bool
    var selectedColorIndex: int
    var selectedTimeIndex: int
    var totalMinutes: nat
    var incrementSeconds: nat
    var aiLevel: nat
    var playVsAI: bool
    /** The daily puzzle's position; the initial placeholder is `'wrong'`. */
    var puzzleFen: string
    var puzzleColor: Chess.Color
    /** Every navigation made, in order. */
    var routes: seq<Navigation>

    /** The initial state: random colour, unlimited clock, 5+8 minutes, level 3, the friend dialog. */
    constructor ()
      ensures !ready && !modalDisplayed && selectedColorIndex == 1 && selectedTimeIndex == 0
      ensures totalMinutes == 5 && incrementSeconds == 8 && aiLevel == 3 && !playVsAI
      ensures puzzleFen == "wrong" && puzzleColor == Chess.White && routes == []
    {
      ready, modalDisplayed := false, false;
      selectedColorIndex, selectedTimeIndex := 1, 0;
      totalMinutes, incrementSeconds, aiLevel := 5, 8, 3;
      playVsAI := false;
      puzzleFen, puzzleColor := "wrong", Chess.White;
      routes := [];
    }

    /** `displayModal(playVsAI)`: the dialog opens for the chosen opponent. */
    method DisplayModal(vsAI: bool)
      modifies this`modalDisplayed, this`playVsAI
      ensures modalDisplayed && playVsAI == vsAI
      ensures selectedColorIndex == old(selectedColorIndex) && selectedTimeIndex == old(selectedTimeIndex)
      ensures totalMinutes == old(totalMinutes) && incrementSeconds == old(incrementSeconds) && aiLevel == old(aiLevel)
      ensures routes == old(routes) && ready == old(ready)
    {
      modalDisplayed, playVsAI := true, vsAI;
    }

    /** `create`: navigates to the chosen game screen with the configuration and clock value, and closes the dialog. */
    method Create()
      modifies this`routes, this`modalDisplayed
      ensures !modalDisplayed
      ensures routes == old(routes) + [RouteFor(playVsAI,
        MakeConfig(selectedColorIndex, selectedTimeIndex, totalMinutes, incrementSeconds, aiLevel),
        ClockValue(selectedTimeIndex, totalMinutes))]
      ensures playVsAI == old(playVsAI) && selectedColorIndex == old(selectedColorIndex)
      ensures selectedTimeIndex == old(selectedTimeIndex) && totalMinutes == old(totalMinutes)
      ensures incrementSeconds == old(incrementSeconds) && aiLevel == old(aiLevel) && ready == old(ready)
    {
      var playConfig := MakeConfig(selectedColorIndex, selectedTimeIndex, totalMinutes, incrementSeconds, aiLevel);
      var time := if selectedTimeIndex == 1 then totalMinutes * 60 else -1;
      if playVsAI {
        routes := routes + [Navigate(PlayerVsAIScreen, GameParams(playConfig, time))];
      } else {
        routes := routes + [Navigate(PlayerVsFriendScreen, GameParams(playConfig, time))];
      }
      modalDisplayed := false;
    }

    /** `handleOpenURL`: a deep link opens the friend screen with the link's game id. */
    method HandleOpenURL(url: string)
      modifies this`routes
      ensures routes == old(routes) + [Navigate(PlayerVsFriendScreen, DeepLink(DeepLinkId(url)))]
    {
      var id := RemoveFirst(url, DeepLinkScheme);
      routes := routes + [Navigate(PlayerVsFriendScreen, DeepLink(id))];
    }

    /** The daily puzzle arrived: its position and colour are shown and the screen is ready. */
    method OnDailyPuzzle(fen: string, color: string)
      modifies this`puzzleFen, this`puzzleColor, this`ready
      ensures ready && puzzleFen == fen
      ensures puzzleColor == Chess.White <==> color == "white"
    {
      puzzleColor := Chess.ColorOfName(color);
      puzzleFen := fen;
      ready := true;
    }
  }
}

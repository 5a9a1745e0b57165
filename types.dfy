/** The records shared by the whole game: a quiz level with its phonics highlighting,
    a versus player and the top-level game state. */
module Types {
  import opened Text

  /** Level ids are numbers for the built-in and editor-made levels (`Date.now()`), and
      strings of the form `ai-<time>` for generated ones; strict equality never relates
      the two kinds. */
  datatype LevelId = NumId(n: int) | StrId(s: string)

  datatype PhonicsRule = PhonicsRule(name: string, indices: seq<int>, color: string, description: string)

  /** `phonicsRules` is an optional field: `None` is an absent field. */
  datatype QuizLevel = QuizLevel(
    id: LevelId,
    sentence: string,
    targetWord: string,
    imageHint: string,
    distractors: seq<string>,
    phonicsRules: Option<seq<PhonicsRule>>)

  /** Player ids 1 and 2. */
  datatype Side = One | Two
  {
    function Other(): (o: Side)
      ensures o != this
    {
      if this == One then Two else One
    }
  }

  /** A versus player, with the `health` field the game state carries at run time. */
  datatype Player = Player(
    id: Side,
    name: string,
    score: int,
    health: int,
    currentInput: string,
    isCorrect: Option<bool>)

  datatype Players = Players(p1: Player, p2: Player)
  {
    function Get(s: Side): Player
    {
      if s == One then p1 else p2
    }

    /** The pair with the player at `s` replaced. */
    function With(s: Side, p: Player): (r: Players)
      ensures r.Get(s) == p && r.Get(s.Other()) == Get(s.Other())
    {
      if s == One then Players(p, p2) else Players(p1, p)
    }
  }

  datatype Winner = Won(side: Side) | Draw

  datatype Status = Playing | LevelComplete | GameOver | Intro | Versus | VersusResult | OnlineWaiting

  datatype Mode = Single | VersusMode | Online

  /** `players` and `winner` are optional fields; `None` stands for both `undefined` and
      `null`, which the game never tells apart. */
  datatype GameState = GameState(
    currentLevelIndex: int,
    score: int,
    timeLeft: int,
    status: Status,
    gameMode: Mode,
    players: Option<Players>,
    winner: Option<Winner>)
}

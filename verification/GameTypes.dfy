/** The stored game state of one room, the tables and timers beside it, and the inputs of a step. */
module GameTypes {
  import opened Collections
  import opened DrawingKeys
  import opened Ordering

  const THEME_SELECTING_DURATION_MS := 32000
  const DRAWING_DURATION_MS := 92000
  const EVALUATING_DURATION_MS := 60000
  const ROUND_SUMMARY_DURATION_MS := 32000
  const LOADING_PHASE_DURATION_MS := 5000
  const TOTAL_ROUNDS: nat := 3
  const RECENT_THEMES_LIMIT: nat := 3
  const SCORE_MIN := 0
  const SCORE_MAX := 10

  datatype Phase = WAITING | LOADING | THEME_SELECTING | DRAWING | EVALUATING | ROUND_SUMMARY | FINISHED

  /** A stroke; tool and color are checked by type before a line is stored, size and points are not. */
  datatype DrawLine = DrawLine(size: int, points: seq<int>)

  predicate IsValidDrawData(lines: seq<DrawLine>) {
    forall l | l in lines :: l.size > 0 && |l.points| >= 2 && |l.points| % 2 == 0
  }

  datatype PhaseContext =
    | NoContext
    | ThemeContext(selectorId: nat)
    | DrawingContext(phaseInstanceId: nat, activeUserIds: seq<nat>, readyUserIds: seq<nat>)
    | EvaluatingContext(activeUserIds: seq<nat>, readyUserIds: seq<nat>)
    | RoundSummaryContext(rankings: seq<Row>, drawingsById: map<string, seq<DrawLine>>, readyUserIds: seq<nat>)

  datatype GameState = GameState(
    phase: Phase,
    endsAt: Option<int>,
    currentRound: Option<nat>,
    totalRounds: Option<nat>,
    matchId: nat,
    memberOf: map<nat, nat>,  // roomMemberIdByUserId
    currentTheme: Option<string>,
    recentThemes: seq<string>,
    totalScores: map<string, int>,
    phaseContext: PhaseContext)

  datatype StrokeKey = StrokeKey(round: nat, userId: nat)

  datatype VoteKey = VoteKey(drawing: DrawingKey, voterId: nat)

  datatype Task = StartThemes | EndDrawing(phaseInstanceId: nat) | EndEvaluating | EndSummary | ReturnToWaiting

  /** A pending setTimeout. The match and round that armed it are a label no handler reads. */
  datatype Timer = Timer(task: Task, matchId: nat, round: nat)

  /** Redis stroke lists, and the drawing and vote rows. */
  datatype Tables = Tables(
    strokes: map<StrokeKey, seq<DrawLine>>,
    drawings: map<DrawingKey, seq<DrawLine>>,
    votes: map<VoteKey, int>)

  /**
   * `timers` holds the callbacks that have neither fired nor been cleared; `phaseSlot`
   * and `returnSlot` are the room's entries of the two timer maps, which may hold a
   * handle that already fired.
   */
  datatype Timing = Timing(
    timers: map<nat, Timer>,
    phaseSlot: Option<nat>,
    returnSlot: Option<nat>,
    nextTimer: nat)

  /** Everything one room's handlers touch. */
  datatype World = World(
    game: Option<GameState>,
    tables: Tables,
    timing: Timing,
    summaryGuard: bool,
    nextInstance: nat)

  /** What a step learns from outside: clock, sockets, random picks, and whether other stores accepted. */
  datatype Env = Env(
    now: int,
    connected: set<nat>,
    theme: string,
    selector: Option<nat>,
    itemsSettled: bool,
    payoutStored: bool)

  datatype Error =
    | STATE_NOT_FOUND
    | CONTEXT_INVALID
    | PHASE_MUST_BE_LOADING
    | PHASE_MUST_BE_THEME_SELECTING
    | PERMISSION_DENIED_SELECTOR
    | THEME_INVALID
    | USER_NOT_ACTIVE
    | INVENTORY_NEGATIVE
    | ROOM_MEMBER_ID_MISSING
    | ROOM_MEMBER_ID_DUPLICATED
    | DRAW_DATA_INVALID
    | INVALID_PHASE
    | INVALID_SCORE
    | ROUND_MISSING
    | DRAWING_ID_INVALID
    | SELF_EVALUATION_NOT_ALLOWED
    | EVALUATION_INCOMPLETE
    | PAYOUT_FAILED

  datatype Reply = Done | Ignored | Refused(error: Error)

  datatype Effect = Effect(world: World, reply: Reply)

  datatype Event =
    | Finalize(userId: nat, typedValue: string)
    | SendLine(userId: nat, line: DrawLine)
    | SubmitDrawing(userId: nat)
    | SubmitEvaluation(userId: nat, drawingId: string, score: int)
    | ReadyToggle(userId: nat)
    | Disconnect(userId: nat)
    | TimerFires(timer: nat)

  /** `value || fallback` on numbers, where 0 also falls back. */
  function OrIfZero(o: Option<nat>, fallback: nat): nat {
    if o.Some? && o.value != 0 then o.value else fallback
  }

  function Round(g: GameState): nat {
    Or(g.currentRound, 1)
  }

  predicate IsLastRound(g: GameState) {
    var total := Or(g.totalRounds, TOTAL_ROUNDS);
    total > 0 && Round(g) >= total
  }

  function StrokesAt(strokes: map<StrokeKey, seq<DrawLine>>, k: StrokeKey): seq<DrawLine> {
    if k in strokes then strokes[k] else []
  }

  function ScoreAt(record: map<string, int>, id: string): int {
    if id in record then record[id] else 0
  }

  predicate IsBlank(c: char) {
    c == ' ' || c == '\t' || c == '\n' || c == '\r'
  }

  function TrimStart(s: string): string {
    if s != "" && IsBlank(s[0]) then TrimStart(s[1..]) else s
  }

  function TrimEnd(s: string): string {
    if s != "" && IsBlank(s[|s| - 1]) then TrimEnd(s[..|s| - 1]) else s
  }

  function Trim(s: string): string {
    TrimEnd(TrimStart(s))
  }

  function RecordTheme(theme: string, recent: seq<string>): seq<string> {
    var all := [theme] + recent;
    if |all| <= RECENT_THEMES_LIMIT then all else all[..RECENT_THEMES_LIMIT]
  }
}

/**
 * The view model of the BJK scoreboard component: the props it is given, with
 * their defaults, and the values it hands to the page — the player names, the
 * two normalized set-score rows, the current-game points, the outer frame and
 * the fit-within layout of the design box.
 */
module ScoreBoard {
  import N = ScoreNormalizer
  import L = LayoutScaler

  /** An optional prop: `None` is a prop left undefined by the caller. */
  datatype Option<T> = None | Some(value: T)

  /** The prop's value, or its default when it was left undefined. */
  function GetOr<T>(o: Option<T>, default: T): T
  {
    match o
    case Some(x) => x
    case None => default
  }

  /** The props of the component that feed its logic. */
  datatype Props = Props(
    width: Option<real>,
    height: Option<real>,
    player1: string,
    player2: string,
    score1: Option<seq<int>>,
    score2: Option<seq<int>>,
    currentGamePoints1: Option<int>,
    currentGamePoints2: Option<int>)

  /** What the component displays, before styling. */
  datatype View = View(
    player1: string,
    player2: string,
    row1: seq<int>,
    row2: seq<int>,
    points1: int,
    points2: int,
    frame: L.Box,
    layout: L.Layout)

  /** The current-game points shown when the caller gives none. */
  const DefaultPoints: int := 0

  /**
   * The component's state-to-layout transform. Names and points are shown
   * as given; each score row has three slots (an absent row shows the
   * default); the design box is scaled to fit the outer frame, whose size is
   * the target size.
   */
  function Render(p: Props): (v: View)
    ensures v.player1 == p.player1 && v.player2 == p.player2
    ensures |v.row1| == N.SetSlots && |v.row2| == N.SetSlots
    ensures p.score1.None? ==> v.row1 == N.DefaultScore
    ensures p.score2.None? ==> v.row2 == N.DefaultScore
    ensures p.score1.Some? ==> v.row1 == N.Normalize(p.score1.value)
    ensures p.score2.Some? ==> v.row2 == N.Normalize(p.score2.value)
    ensures p.currentGamePoints1.Some? ==> v.points1 == p.currentGamePoints1.value
    ensures p.currentGamePoints2.Some? ==> v.points2 == p.currentGamePoints2.value
    ensures p.currentGamePoints1.None? ==> v.points1 == DefaultPoints
    ensures p.currentGamePoints2.None? ==> v.points2 == DefaultPoints
    ensures v.frame.width == (if p.width.Some? then p.width.value else L.DefaultWidth)
    ensures v.frame.height == (if p.height.Some? then p.height.value else L.DefaultHeight)
    ensures v.layout == L.FitLayout(v.frame.width, v.frame.height)
    ensures L.Contains(v.frame, v.layout.box)
    ensures v.layout.box.width == v.frame.width || v.layout.box.height == v.frame.height
    ensures L.SameAspect(v.layout.box, L.Box(L.BaseWidth, L.BaseHeight))
  {
    var width := GetOr(p.width, L.DefaultWidth);
    var height := GetOr(p.height, L.DefaultHeight);
    var score1 := GetOr(p.score1, N.DefaultScore);
    var score2 := GetOr(p.score2, N.DefaultScore);
    View(
      p.player1,
      p.player2,
      N.Normalize(score1),
      N.Normalize(score2),
      GetOr(p.currentGamePoints1, DefaultPoints),
      GetOr(p.currentGamePoints2, DefaultPoints),
      L.Box(width, height),
      L.FitLayout(width, height))
  }

  /**
   * With every optional prop left out, the board shows empty rows, zero
   * points and the design box at its own size, filling the default frame.
   */
  lemma RenderDefaults(player1: string, player2: string)
    ensures var v := Render(Props(None, None, player1, player2, None, None, None, None));
      && v.row1 == [0, 0, 0] && v.row2 == [0, 0, 0]
      && v.points1 == 0 && v.points2 == 0
      && v.layout.scale == 1.0
      && v.layout.box == v.frame == L.Box(892.0, 512.0)
  {
  }

  /**
   * The page's instance (896 x 512, zero scores and points): scale 1, so the
   * design box keeps its 892 x 512 size and 4 units of the frame stay unused
   * on the right.
   */
  lemma RenderPage()
    ensures var v := Render(Props(Some(896.0), Some(512.0), "E. MORGAN", "R. BIRIA",
                                  Some([0, 0, 0]), Some([0, 0, 0]), Some(0), Some(0)));
      && v.row1 == [0, 0, 0] && v.row2 == [0, 0, 0]
      && v.points1 == 0 && v.points2 == 0
      && v.layout.scale == 1.0
      && v.layout.box == L.Box(892.0, 512.0)
      && v.frame.width - v.layout.box.width == 4.0
  {
  }

  /**
   * The scale depends on the target size alone, and the score rows on the
   * scores alone: a resize leaves the rows as they were, and new scores
   * leave the layout as it was.
   */
  lemma RenderSeparatesScoresFromSize(p: Props, width: Option<real>, height: Option<real>,
                                      score1: Option<seq<int>>, score2: Option<seq<int>>)
    ensures Render(p.(width := width, height := height)).row1 == Render(p).row1
    ensures Render(p.(width := width, height := height)).row2 == Render(p).row2
    ensures Render(p.(score1 := score1, score2 := score2)).layout == Render(p).layout
  {
  }
}

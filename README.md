# BJK scoreboard: state-to-layout model

This project is a Dafny model of the logic in the `TennisScoreboard` component
of the BJK tennis scoreboard overlay (`components/BJKScoreBoard.tsx`). The
component draws a fixed 892 x 512 design: a header with two logos, two player
names, three set-score columns per player and the current-game points. It does
two small computations that feed the drawing:

- **Set-score normalizer** (`ScoreNormalizer`, `normalizer.dfy`). Each player's
  list of set scores becomes exactly three slots, `[...score, 0, 0, 0].slice(0, 3)`.
  Short lists are padded on the right with zeros. Long lists keep their first
  three entries. Values are not checked, so negative scores pass through.
- **Uniform fit-within scaler** (`LayoutScaler`, `scaler.dfy`). For a target
  `width` x `height`, the design box is scaled by `min(width/892, height/512)`
  with its origin at the top-left corner. The model uses exact `real`
  arithmetic.
- **View model** (`ScoreBoard`, `scoreboard.dfy`). This covers the props with
  their defaults: 892 x 512, `[0, 0, 0]` scores and 0 points. It also covers the
  values the component displays: the names, the two rows, the points, the outer
  frame of the target size and the scaled design box.

Main results:

- `Normalize` agrees slot by slot with `PadOrTruncate`, an independent
  recursive definition. It pads, truncates and is idempotent.
- `Scale` is the largest uniform factor for which the design box fits inside
  the target (an if-and-only-if).
- The scaled box touches the target on at least one axis. It keeps the 892:512
  proportion.
- `Scale` has no precondition, because the source does not check `width` or
  `height`. The inequalities behind "fits", "touches" and "same proportion"
  hold for every real input. They describe a real box inside the target only
  when both target sides are positive. Then the scale and both sides of the
  scaled box are positive. For a negative side, the factor is negative: the
  browser would mirror the content, not fit it.

## Model

| member | source | states |
|---|---|---|
| `ScoreNormalizer.Normalize` | components/BJKScoreBoard.tsx:56-58 | the row has exactly three slots; slot `i` is the `i`-th score when the list has one, else 0 |
| `ScoreNormalizer.PadOrTruncateSlots` | components/BJKScoreBoard.tsx:57 | the one-slot-at-a-time reference definition has `n` slots, each the score at that position or 0 (proved by induction) |
| `ScoreNormalizer.NormalizeIsPadOrTruncate` | components/BJKScoreBoard.tsx:57 | the spread-and-slice expression equals the reference definition for three slots |
| `ScoreNormalizer.NormalizePadsShort` | components/BJKScoreBoard.tsx:57 | a list of at most three scores is followed by `3 - |s|` zeros |
| `ScoreNormalizer.NormalizeTruncatesLong` | components/BJKScoreBoard.tsx:57 | a list of at least three scores gives its first three, in order |
| `ScoreNormalizer.NormalizeFixedPoints` | components/BJKScoreBoard.tsx:56-58 | normalizing leaves a list unchanged if and only if it has exactly three entries |
| `ScoreNormalizer.NormalizeIdempotent` | components/BJKScoreBoard.tsx:57-58 | normalizing a normalized row returns it unchanged |
| `ScoreNormalizer.NormalizeDefaults` | components/BJKScoreBoard.tsx:25-26 | the empty list and the default `[0, 0, 0]` both normalize to `[0, 0, 0]` |
| `ScoreNormalizer.NormalizeExamples` | components/BJKScoreBoard.tsx:57 | `[4, 1]` gives `[4, 1, 0]` and `[6, 3, 7, 2]` gives `[6, 3, 7]` |
| `LayoutScaler.Min` | components/BJKScoreBoard.tsx:42 | `Math.min` of two numbers is at most each and equal to one of them |
| `LayoutScaler.Scale` | components/BJKScoreBoard.tsx:34-42 | the scale is at most each axis ratio (`width/892`, `height/512`) and equal to one of them |
| `LayoutScaler.ScaledBox` | components/BJKScoreBoard.tsx:44-47 | the 892 x 512 box under a uniform scale keeps the 892:512 proportion |
| `LayoutScaler.FitLayout` | components/BJKScoreBoard.tsx:40-47 | the factor is the computed scale and the box is the design box under it; that box lies inside the target box (both anchored top-left), equals it on at least one axis, and keeps the design proportion; for positive target sides the factor and both box sides are positive |
| `LayoutScaler.ScaleIsLargestFit` | components/BJKScoreBoard.tsx:40-42 | a uniform factor fits the design box inside the target if and only if it is at most the computed scale |
| `LayoutScaler.ScalePositive` | components/BJKScoreBoard.tsx:40-42 | the scale is positive if and only if both target sides are positive |
| `LayoutScaler.ScaleMonotone` | components/BJKScoreBoard.tsx:40-42 | a target at least as large on both axes never gets a smaller scale |
| `LayoutScaler.ScaleHomogeneous` | components/BJKScoreBoard.tsx:40-42 | multiplying both target sides by `k > 0` multiplies the scale by `k` |
| `LayoutScaler.ScaleExamples` | components/BJKScoreBoard.tsx:21-22 | 892 x 512 and 896 x 512 both give scale 1; 1200 x 600 gives 600/512 and a 1045.3125 x 600 box |
| `ScoreBoard.Render` | components/BJKScoreBoard.tsx:20-62 | names and points are displayed unchanged (points default to 0); each row is the normalized score list or `[0, 0, 0]` when absent; the frame is the target size (default 892 x 512); the layout is the fit-within layout of the frame, so the design box fits the frame, touches it on one axis and keeps its proportion |
| `ScoreBoard.RenderDefaults` | components/BJKScoreBoard.tsx:21-28 | with every optional prop absent: rows `[0, 0, 0]`, points 0, scale 1, design box equal to the 892 x 512 frame |
| `ScoreBoard.RenderPage` | app/page.tsx:13-24 | the page's 896 x 512 instance with zero scores gets scale 1, rows `[0, 0, 0]`, and 4 unused units on the right |
| `ScoreBoard.RenderSeparatesScoresFromSize` | components/BJKScoreBoard.tsx:38-58 | changing the target size leaves the rows unchanged; changing the scores leaves the layout unchanged |

## Left out

- The JSX tree and its style objects (`components/BJKScoreBoard.tsx:60-195`, except the frame size at lines 61-62) are presentation only, with no logic.
- The DOM writes in the effect are left out: `style.transform`, `transformOrigin`, the pixel width and height strings, and the parent's `overflow`. They are represented only by the box they produce (`ScaledBox`, anchored top-left).
- React's scheduling of the effect (`useRef`, `useEffect` and its `[width, height]` dependency list) is left out. It is framework plumbing. The model is one pure function of the props.
- Logos (`barnesLogoUrl`, `ustaLogoUrl`, the imported tournament logo, `next/image`) are opaque asset references passed to a foreign component. They are not part of `Props`.
- `tournamentName` and `year` are declared and destructured, but nothing uses them. They are not part of `Props`. The page instance leaves them out even though they are declared required.
- IEEE floating-point division and `Math.min` are left out, including rounding, `NaN`, `Infinity` and signed zero. The model uses exact reals; a non-numeric width or height is not modelled.
- Set scores and current-game points are JavaScript `number` values (`components/BJKScoreBoard.tsx:10-13`). The model narrows them to `int`, so non-integer, `NaN` or infinite scores and points are outside it. Both are passed through unchanged, so no behaviour of the component is lost.
- A serve indicator does not appear in the component, so none is modelled.
- A prop passed explicitly as `undefined` and one simply omitted are both `None`; JavaScript applies the default in both cases. `null` is not modelled, since the prop types exclude it.

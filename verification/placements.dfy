/** The two placements of an ad, their canvases and their readability floors. */
module Placements {
  datatype Placement = Feed | Story

  function Other(p: Placement): Placement {
    if p == Feed then Story else Feed
  }

  function CanvasWidth(p: Placement): int {
    1080
  }

  function CanvasHeight(p: Placement): int {
    if p == Feed then 1350 else 1920
  }

  /** The smallest text size in canvas pixels. */
  function MinimumTextSize(p: Placement): real {
    if p == Feed then 24.0 else 32.0
  }
}

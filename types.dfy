/** The value types shared by the screens: the result card, swipe directions and game modes. */
module Types {
  import opened Wrappers

  /** A movie as shown on a card: `matchRate` is a percentage, `tmdbId` is set only for streamed movies. */
  datatype ResultItem = ResultItem(title: string, desc: string, image: string, matchRate: int, tmdbId: Option<int>)

  datatype SwipeDirection = Left | Right | Up

  datatype GameMode = Select | Random
}

/** The geometry of the playlist panel: how many rows it shows and where. */
module PlaylistView {

  /** `playlist_visible_items`. */
  const VisibleItems := 10
  /** `playlist_item_height`. */
  const ItemHeight := 20
  /** The y-coordinate of the first visible row. */
  const FirstRowY := 160
  /** The x-coordinate at which every row's title is drawn. */
  const RowX := 30

  /** One drawn line of the playlist: which track, where, and with what text. */
  datatype Row = Row(index: int, x: int, y: int, title: string)

  function Min(a: int, b: int): int {
    if a <= b then a else b
  }

  /** `end_index` of `draw_playlist`: one past the last index drawn. */
  function WindowEnd(offset: int, count: int): (end: int)
    ensures end <= count && end <= offset + VisibleItems
    ensures end == count || end == offset + VisibleItems
  {
    Min(offset + VisibleItems, count)
  }
}

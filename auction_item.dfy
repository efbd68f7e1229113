/** The auction lot record shared by the dashboard and its cards. */
module AuctionItem {
  import opened Optional

  /**
    One auction lot as the server sends it. `highestBidder` is the socket id of
    the leading connection, absent while nobody has bid. Amounts and times are
    integer milliseconds / currency units.
  */
  datatype Item = Item(
    id: string,
    title: string,
    imageUrl: string,
    startingPrice: int,
    currentBid: int,
    highestBidder: Option<string>,
    endTime: int)

  /** `a` and `b` describe the same lot: everything but the bid fields agrees. */
  predicate SameListing(a: Item, b: Item) {
    && a.id == b.id
    && a.title == b.title
    && a.imageUrl == b.imageUrl
    && a.startingPrice == b.startingPrice
    && a.endTime == b.endTime
  }
}

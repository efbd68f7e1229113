/**
  The dashboard session: the item list and the clock offset that the socket
  and REST handlers overwrite, the bid-update reconciler, and the
  "highest bidder" test that each card receives.

  Inbound socket events are method calls carrying their payloads; the local
  clock reading taken by a handler is a parameter. Ids are strings, and an
  absent id (JavaScript `undefined`) is `None`.
*/
module Dashboard {
  import opened Optional
  import opened AuctionItem
  import opened AuctionCard

  /** The socket handle; its `id` is absent until the connection is established. */
  datatype SocketHandle = SocketHandle(id: Option<string>)

  /** The payload of an `UPDATE_BID` event. */
  datatype BidUpdate = BidUpdate(itemId: string, currentBid: int, highestBidder: Option<string>)

  /** The payload of an `INITIAL_DATA` event: a bare list, or a list stamped with the server clock. */
  datatype InitialData =
    | ItemList(items: seq<Item>)
    | Snapshot(items: seq<Item>, serverTime: int)

  /** The part of the session that inbound events change. */
  datatype SessionState = SessionState(items: seq<Item>, timeOffset: int)

  /** The inbound events, with the local clock reading an `INITIAL_DATA` handler takes. */
  datatype Event =
    | InitialDataReceived(data: InitialData, clientTime: int)
    | ItemsFetched(items: seq<Item>)
    | BidUpdated(update: BidUpdate)
    | BidFailed(message: string)

  /** The item with the update's bid and leader spread over it. */
  function WithBid(item: Item, u: BidUpdate): (r: Item)
    ensures SameListing(r, item)
    ensures r.currentBid == u.currentBid && r.highestBidder == u.highestBidder
  {
    item.(currentBid := u.currentBid, highestBidder := u.highestBidder)
  }

  /**
    The `UPDATE_BID` reconciler: every item with the update's id takes the new
    bid and leader, whatever the old bid or the end time; every other item, and
    every other field, is kept, in the same order.
  */
  function UpdateBid(items: seq<Item>, u: BidUpdate): (r: seq<Item>)
    ensures |r| == |items|
    ensures forall i :: 0 <= i < |items| && items[i].id != u.itemId ==> r[i] == items[i]
    ensures forall i :: 0 <= i < |items| && items[i].id == u.itemId ==>
      && SameListing(r[i], items[i])
      && r[i].currentBid == u.currentBid
      && r[i].highestBidder == u.highestBidder
  {
    if items == [] then []
    else
      var head := if items[0].id == u.itemId then WithBid(items[0], u) else items[0];
      [head] + UpdateBid(items[1..], u)
  }

  function Ids(items: seq<Item>): (ids: seq<string>)
    ensures |ids| == |items|
    ensures forall i :: 0 <= i < |items| ==> ids[i] == items[i].id
  {
    if items == [] then [] else [items[0].id] + Ids(items[1..])
  }

  /** The update keeps the list's ids in their order. */
  lemma UpdateBidKeepsIds(items: seq<Item>, u: BidUpdate)
    ensures Ids(UpdateBid(items, u)) == Ids(items)
  {
  }

  /** An update for an id no item has leaves the list as it is. */
  lemma UnknownIdIsNoOp(items: seq<Item>, u: BidUpdate)
    requires forall i :: 0 <= i < |items| ==> items[i].id != u.itemId
    ensures UpdateBid(items, u) == items
  {
  }

  /** Delivering the same update twice is the same as delivering it once. */
  lemma UpdateBidIdempotent(items: seq<Item>, u: BidUpdate)
    ensures UpdateBid(UpdateBid(items, u), u) == UpdateBid(items, u)
  {
  }

  /** No monotonicity check: an update lowering a matching item's bid is taken as it is. */
  lemma LowerBidAccepted(items: seq<Item>, i: nat, u: BidUpdate)
    requires i < |items| && items[i].id == u.itemId
    ensures UpdateBid(items, u)[i] == WithBid(items[i], u)
    ensures u.currentBid < items[i].currentBid ==> UpdateBid(items, u)[i].currentBid < items[i].currentBid
  {
  }

  /** No end-time check: a matching item whose card already shows the terminal text is still updated. */
  lemma UpdateAfterEndApplied(items: seq<Item>, i: nat, u: BidUpdate, now: int, offset: int)
    requires i < |items| && items[i].id == u.itemId
    requires TickText(items[i].endTime, now, offset) == ENDED_TEXT
    ensures UpdateBid(items, u)[i].currentBid == u.currentBid
    ensures UpdateBid(items, u)[i].highestBidder == u.highestBidder
  {
  }

  /**
    The `isHighestBidder` prop: a socket exists and its id equals the item's
    leader, where two absent ids count as equal.
  */
  function IsHighestBidder(socket: Option<SocketHandle>, item: Item): (b: bool)
    ensures socket == None ==> !b
    ensures b <==> socket.Some? && socket.value.id == item.highestBidder
  {
    socket.Some? && socket.value.id == item.highestBidder
  }

  /** With a connected socket, the test is "my id is the leader". */
  lemma WinningWhenConnected(self: string, item: Item)
    ensures IsHighestBidder(Some(SocketHandle(Some(self))), item) <==> item.highestBidder == Some(self)
  {
  }

  /**
    A socket that exists but has no id yet "wins" every item whose leader
    field is absent: both sides of the comparison are `undefined`. Its card
    reads "winning" while it runs and "won" once it has ended.
  */
  lemma UnconnectedSocketWinsUnbidItems(item: Item, timeLeft: string)
    requires item.highestBidder == None
    ensures IsHighestBidder(Some(SocketHandle(None)), item)
    ensures Badge(IsHighestBidder(Some(SocketHandle(None)), item), timeLeft) ==
      Some(if timeLeft == ENDED_TEXT then WON_TEXT else WINNING_TEXT)
  {
  }

  /**
    The session after one inbound event. Installs replace the list, an update
    maps over it, and only a stamped snapshot moves the clock offset.
  */
  function Apply(st: SessionState, ev: Event): (r: SessionState)
    ensures IsInstall(ev) ==> r.items == InstalledItems(ev)
    ensures ev.BidUpdated? ==> r.items == UpdateBid(st.items, ev.update)
    ensures ev.BidFailed? ==> r == st
    ensures r.timeOffset != st.timeOffset ==> ev.InitialDataReceived? && ev.data.Snapshot?
    ensures ev.InitialDataReceived? && ev.data.Snapshot? ==> ev.clientTime + r.timeOffset == ev.data.serverTime
  {
    match ev
    case InitialDataReceived(data, clientTime) =>
      (match data
       case ItemList(items) => st.(items := items)
       case Snapshot(items, serverTime) => SessionState(items, serverTime - clientTime))
    case ItemsFetched(items) => st.(items := items)
    case BidUpdated(u) => st.(items := UpdateBid(st.items, u))
    case BidFailed(_) => st
  }

  /** Events that install a whole item list. */
  predicate IsInstall(ev: Event) {
    ev.InitialDataReceived? || ev.ItemsFetched?
  }

  function InstalledItems(ev: Event): seq<Item>
    requires IsInstall(ev)
  {
    if ev.InitialDataReceived? then ev.data.items else ev.items
  }

  /** Of two installs the later one wins, whichever path each came by. */
  lemma LastInstallWins(st: SessionState, first: Event, second: Event)
    requires IsInstall(first) && IsInstall(second)
    ensures Apply(Apply(st, first), second).items == InstalledItems(second)
  {
  }

  /**
    Handling the same install event twice, its local clock reading included,
    is the same as handling it once.
  */
  lemma InstallIdempotent(st: SessionState, ev: Event)
    requires IsInstall(ev)
    ensures Apply(Apply(st, ev), ev) == Apply(st, ev)
  {
  }

  /**
    A re-delivered `INITIAL_DATA` payload, handled at a second clock reading,
    leaves the session as if only the second delivery had arrived: the items
    are those of the first delivery, and a stamped payload takes the second
    sample's offset, so the offset moves whenever the readings differ.
  */
  lemma RedeliveryTakesLaterSample(st: SessionState, data: InitialData, first: int, second: int)
    ensures var once := Apply(st, InitialDataReceived(data, first));
      var twice := Apply(once, InitialDataReceived(data, second));
      && twice == Apply(st, InitialDataReceived(data, second))
      && twice.items == once.items
      && (data.Snapshot? && first != second ==> twice.timeOffset != once.timeOffset)
  {
  }

  /** A bare list and the REST fetch leave the clock offset as it was. */
  lemma ListInstallKeepsOffset(st: SessionState, ev: Event)
    requires ev.ItemsFetched? || (ev.InitialDataReceived? && ev.data.ItemList?)
    ensures Apply(st, ev).timeOffset == st.timeOffset
  {
  }

  /**
    The bid round trip: my bid is echoed back as an update naming me; the card
    then reads "winning" while time is left and "won" once it has run out.
  */
  lemma EchoedBidWins(st: SessionState, i: nat, self: string, amount: int, now: int, offset: int)
    requires i < |st.items|
    ensures var after := Apply(st, BidUpdated(BidUpdate(st.items[i].id, amount, Some(self))));
      var item := after.items[i];
      var socket := Some(SocketHandle(Some(self)));
      && item.currentBid == amount
      && IsHighestBidder(socket, item)
      && Badge(IsHighestBidder(socket, item), TickText(item.endTime, now, offset)) ==
           Some(if Remaining(item.endTime, now, offset) > 0 then WINNING_TEXT else WON_TEXT)
  {
  }

  /** The live session: the state the handlers overwrite, and the socket handle. */
  class Session {
    var items: seq<Item>
    var timeOffset: int
    var socket: Option<SocketHandle>

    function State(): SessionState
      reads this
    {
      SessionState(items, timeOffset)
    }

    /** A fresh dashboard: no items, clocks assumed aligned, no socket yet. */
    constructor ()
      ensures items == [] && timeOffset == 0 && socket == None
    {
      items := [];
      timeOffset := 0;
      socket := None;
    }

    /** The mount effect stores the socket it opened. */
    method SetSocket(handle: SocketHandle)
      modifies this
      ensures socket == Some(handle)
      ensures State() == old(State())
    {
      socket := Some(handle);
    }

    /** `INITIAL_DATA`, handled at local time `clientTime`. */
    method OnInitialData(data: InitialData, clientTime: int)
      modifies this
      ensures State() == Apply(old(State()), InitialDataReceived(data, clientTime))
      ensures items == data.items
      ensures data.ItemList? ==> timeOffset == old(timeOffset)
      ensures data.Snapshot? ==> clientTime + timeOffset == data.serverTime
      ensures socket == old(socket)
    {
      match data
      case ItemList(list) =>
        items := list;
      case Snapshot(list, serverTime) =>
        items := list;
        timeOffset := serverTime - clientTime;
    }

    /** The REST fetch's result. */
    method OnItemsFetched(list: seq<Item>)
      modifies this
      ensures State() == Apply(old(State()), ItemsFetched(list))
      ensures items == list && timeOffset == old(timeOffset)
      ensures socket == old(socket)
    {
      items := list;
    }

    /** `UPDATE_BID`. */
    method OnUpdateBid(u: BidUpdate)
      modifies this
      ensures State() == Apply(old(State()), BidUpdated(u))
      ensures items == UpdateBid(old(items), u) && timeOffset == old(timeOffset)
      ensures socket == old(socket)
    {
      items := UpdateBid(items, u);
    }

    /** `BID_ERROR`: the notice shown to the user; no state changes. */
    method OnBidError(message: string) returns (notice: string)
      ensures notice == "Bid failed: " + message
    {
      notice := "Bid failed: " + message;
    }

    /** `handleBid`: the `BID_PLACED` message emitted, if there is a socket; no state changes. */
    method HandleBid(itemId: string, amount: int) returns (emitted: Option<BidIntent>)
      ensures emitted.Some? <==> socket.Some?
      ensures emitted.Some? ==> emitted.value == BidIntent(itemId, amount)
    {
      if socket.Some? {
        emitted := Some(BidIntent(itemId, amount));
      } else {
        emitted := None;
      }
    }

    /** The `isHighestBidder` prop of the card at position `i`. */
    function IsWinning(i: nat): (b: bool)
      reads this
      requires i < |items|
      ensures socket == None ==> !b
    {
      IsHighestBidder(socket, items[i])
    }
  }
}

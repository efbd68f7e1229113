# Live-auction client: countdown and bid reconciliation

This project models the logic of a small live-auction web client. It has two parts.

- **Auction card** (`AuctionCard`). A timer fires once a second. Each firing works out how many milliseconds remain until the lot's `endTime`, reading the local clock corrected by the session's clock offset. At zero or below, the card shows `Auction Ended` and stops its own timer. Otherwise it shows `{minutes}m {seconds}s`. Whole hours are dropped from that text, so the minutes are always below 60. A "highest bidder" card shows the badge `YOU WON!` once the text is `Auction Ended`, and `YOU ARE WINNING` before that. The bid button proposes the displayed bid plus 10. It is disabled exactly while the text is `Auction Ended`.
- **Dashboard session** (`Dashboard`). The session holds the item list and the clock offset. `INITIAL_DATA` may carry a bare list, which replaces the items. It may instead carry `{items, serverTime}`, which replaces the items and sets `offset = serverTime - clientTime`. The REST fetch also replaces the list wholesale. `UPDATE_BID` maps over the list. Every item whose id matches gets the new `currentBid` and `highestBidder`. All other items and fields stay as they were. `BID_ERROR` only produces a notice. `handleBid` emits `BID_PLACED` only when a socket exists. A card counts as "highest bidder" when a socket exists and its id equals the item's `highestBidder`.

Modules:
- `Optional` holds `Option`. `None` is JavaScript's `undefined`.
- `Decimal` renders a natural number the way a template literal `${n}` does. It also holds the parser used to state what the rendering means.
- `AuctionItem` holds the lot record.
- `AuctionCard` holds the countdown arithmetic and text, the badge, the click, the button test, and the `CountdownTimer` class.
- `Dashboard` holds the `UPDATE_BID` reconciler and the `isHighestBidder` test. It also has a pure session state with an `Apply` step per inbound event, and the `Session` class whose handlers are proved against `Apply`.

Behaviours of the code worth knowing, each proved as a lemma:
- The countdown drops whole hours. With 1h 1m 5s left the card reads `1m 5s` (`HoursDiscarded`, `HourWrapExample`).
- `UPDATE_BID` is applied to a lot whose card already reads `Auction Ended` (`UpdateAfterEndApplied`). It is also applied when it lowers the bid (`LowerBidAccepted`).
- Nothing enforces `currentBid >= startingPrice`, or that `highestBidder` is set only once a bid exists. The model states neither as a guarantee.
- Every stamped `INITIAL_DATA` sets the offset again. Nothing keeps the first sample (`RedeliveryTakesLaterSample`).

## Model

| member | source | states |
|---|---|---|
| AuctionCard.Minutes | src/components/AuctionCard.jsx:18 | For a positive remaining time, the minutes shown are below 60. |
| AuctionCard.Seconds | src/components/AuctionCard.jsx:19 | For a positive remaining time, the seconds shown are below 60. |
| AuctionCard.ClockFields | src/components/AuctionCard.jsx:18-19 | The remaining time equals whole hours, plus the shown minutes times 60000, plus the shown seconds times 1000, plus the leftover milliseconds. |
| AuctionCard.ClockFieldsUnique | src/components/AuctionCard.jsx:18-19 | Split the remaining time into hours, minutes below 60, seconds below 60 and milliseconds below 1000. That split's minutes and seconds are exactly the ones shown. |
| AuctionCard.HoursDiscarded | src/components/AuctionCard.jsx:18 | Adding whole hours to the remaining time changes neither the minutes nor the seconds shown. |
| AuctionCard.HourWrapExample | src/components/AuctionCard.jsx:18-20 | With 1h 1m 5s left, the card shows the same text as with 1m 5s left. |
| Decimal.NatToString | src/components/AuctionCard.jsx:20 | A number renders as one or more digits with no leading zero. |
| Decimal.DigitsRoundTrip | src/components/AuctionCard.jsx:20 | Reading a rendered number's digits back gives the number. |
| Decimal.CanonicalRoundTrip | src/components/AuctionCard.jsx:20 | A digit string with no leading zero is the rendering of the number it denotes. |
| Decimal.ParseNatInverse | src/components/AuctionCard.jsx:20 | Whatever the number parser accepts is a rendered number followed by the rest of the text, so it rejects padded digits such as `05`. |
| Decimal.ParseRenderedNat | src/components/AuctionCard.jsx:20 | A rendered number followed by a non-digit parses back to the same number and the rest of the text. |
| AuctionCard.Remaining | src/components/AuctionCard.jsx:11-12 | The remaining time is at most zero exactly when the corrected clock `now + offset` has reached `endTime`. |
| AuctionCard.CountdownText | src/components/AuctionCard.jsx:20 | The text `${minutes}m ${seconds}s` parses back to exactly (minutes, seconds). |
| AuctionCard.ParseCountdownInverse | src/components/AuctionCard.jsx:20 | Any text that parses as (m, s) is exactly `CountdownText(m, s)`. With `CountdownText`'s contract, this makes parsing and rendering inverse in both directions. |
| AuctionCard.EndedTextIsNotCountdown | src/components/AuctionCard.jsx:14-20 | `Auction Ended` never parses as a running countdown, so it can never equal one. |
| AuctionCard.TickText | src/components/AuctionCard.jsx:11-21 | A tick's text is `Auction Ended` exactly when `endTime - (now + offset) <= 0`. Otherwise the text parses to the wrapped minutes and seconds of the remaining time. By `ParseCountdownInverse`, that pins the text to the unpadded `${minutes}m ${seconds}s`. |
| AuctionCard.TickTextRunning | src/components/AuctionCard.jsx:17-20 | While time remains, a tick's text is the running display of the remaining time's minutes and seconds. |
| AuctionCard.EndedIsStable | src/components/AuctionCard.jsx:11-16 | Once a tick shows `Auction Ended`, every tick at a later time with the same offset shows it too. |
| AuctionCard.SixtyFiveSecondsExample | src/components/AuctionCard.jsx:11-20 | 65000 ms before the end the text is `1m 5s`. 66000 ms later it is `Auction Ended`. |
| AuctionCard.ButtonDisabled | src/components/AuctionCard.jsx:109 | The button is disabled exactly when the text is `Auction Ended`. A disabled button never shows the initial blank or a running countdown. |
| AuctionCard.DisabledIffEnded | src/components/AuctionCard.jsx:109 | The button on a ticked card is disabled exactly when no time remains. |
| AuctionCard.Badge | src/components/AuctionCard.jsx:93-103 | A badge appears exactly for the highest bidder. It reads `YOU WON!` exactly when the text is `Auction Ended`, and `YOU ARE WINNING` otherwise. |
| AuctionCard.BeforeFirstTick | src/components/AuctionCard.jsx:93-109 | Before the first tick the text is empty (line 5). The button is enabled, and a highest bidder sees `YOU ARE WINNING`. |
| AuctionCard.Click | src/components/AuctionCard.jsx:107-109 | A click proposes a bid exactly when the button is enabled. It proposes the item's own id and `currentBid + 10`. |
| AuctionCard.NoBidAfterEnd | src/components/AuctionCard.jsx:107-109 | A card whose tick shows `Auction Ended` proposes no bid. |
| AuctionCard.CountdownTimer.constructor | src/components/AuctionCard.jsx:5-10 | A new timer has empty text, is running, and keeps the end time and offset it started with. |
| AuctionCard.CountdownTimer.Tick | src/components/AuctionCard.jsx:10-22 | A running timer takes the tick's text and stops exactly when no time remains. A stopped timer does not change. The end time and offset stay as they were. The text stays blank, `Auction Ended`, or a running display. |
| AuctionCard.CountdownTimer.Restart | src/components/AuctionCard.jsx:9-25 | When `endTime` changes, the old interval is replaced by a running one with the new end time and that render's offset. The text carries over unchanged until the next firing. |
| AuctionCard.CountdownTimer.Dispose | src/components/AuctionCard.jsx:24 | Cleanup stops the timer and leaves the text, end time and offset as they were. |
| Dashboard.WithBid | src/components/Dashboard.jsx:48 | The spread keeps every listing field of the item and sets `currentBid` and `highestBidder` to the update's values. |
| Dashboard.UpdateBid | src/components/Dashboard.jsx:44-52 | The list keeps its length. Items with another id are unchanged. Every matching item takes the update's bid and leader, with no check against the old bid or the end time. All of a matching item's other fields are kept. |
| Dashboard.UpdateBidKeepsIds | src/components/Dashboard.jsx:45-51 | An update keeps the ids of the list, in order. |
| Dashboard.UnknownIdIsNoOp | src/components/Dashboard.jsx:46-50 | An update for an id that no item has leaves the list identical. |
| Dashboard.UpdateBidIdempotent | src/components/Dashboard.jsx:45-51 | Applying the same update twice gives the same list as applying it once. |
| Dashboard.LowerBidAccepted | src/components/Dashboard.jsx:48 | In any list, a matching item becomes `WithBid` of itself. An update that lowers its bid is taken as it is. |
| Dashboard.UpdateAfterEndApplied | src/components/Dashboard.jsx:44-52 | In any list, a matching item whose card already shows `Auction Ended` still takes the update's bid and leader. |
| Dashboard.IsHighestBidder | src/components/Dashboard.jsx:99 | True exactly when a socket exists and its id equals the item's leader, two absent ids counting as equal. Always false without a socket. |
| Dashboard.WinningWhenConnected | src/components/Dashboard.jsx:99 | With a connected socket whose id is `self`, an item is winning exactly when its leader is `self`. |
| Dashboard.UnconnectedSocketWinsUnbidItems | src/components/Dashboard.jsx:99 | A socket with no id yet is the "highest bidder" of every item whose leader field is absent. That card shows `YOU ARE WINNING` while it runs and `YOU WON!` once it reads `Auction Ended`, so every unbid lot that ends reads as won. |
| Dashboard.Apply | src/components/Dashboard.jsx:31-70 | Both installs replace the list with the payload's list, nothing of the previous list surviving. An update maps `UpdateBid` over the list, and a bid error changes nothing. Only a stamped snapshot moves the offset, and afterwards `clientTime + offset == serverTime`. |
| Dashboard.LastInstallWins | src/components/Dashboard.jsx:64-70 | After two installs, by either path in either order, the items are those of the later one. |
| Dashboard.InstallIdempotent | src/components/Dashboard.jsx:31-41 | Handling the same install event twice, its local clock reading included, gives the same session state as handling it once. |
| Dashboard.RedeliveryTakesLaterSample | src/components/Dashboard.jsx:31-41 | An `INITIAL_DATA` payload delivered again at a second clock reading leaves the state of the second delivery alone. The items are unchanged by the repeat. A stamped payload takes the second sample's offset, which differs from the first whenever the readings differ. |
| Dashboard.ListInstallKeepsOffset | src/components/Dashboard.jsx:32-33 | A bare-list `INITIAL_DATA` and the REST fetch leave the clock offset unchanged. |
| Dashboard.EchoedBidWins | src/components/Dashboard.jsx:96-100 | Suppose an update names this socket as leader at some bid. The item then carries that bid and counts as winning for this socket. Its badge reads `YOU ARE WINNING` while time remains and `YOU WON!` after. |
| Dashboard.Session.constructor | src/components/Dashboard.jsx:10-13 | A new session has no items, offset 0 and no socket. |
| Dashboard.Session.SetSocket | src/components/Dashboard.jsx:17-18 | Stores the socket and leaves items and offset unchanged. |
| Dashboard.Session.OnInitialData | src/components/Dashboard.jsx:31-41 | The new state is one `INITIAL_DATA` step from the old one. The items are the payload's. A bare list keeps the offset. A snapshot makes `clientTime + offset == serverTime`. |
| Dashboard.Session.OnItemsFetched | src/components/Dashboard.jsx:64-70 | The items become the fetched list. The offset and socket are unchanged. |
| Dashboard.Session.OnUpdateBid | src/components/Dashboard.jsx:44-52 | The items become `UpdateBid` of the old items. The offset and socket are unchanged. |
| Dashboard.Session.OnBidError | src/components/Dashboard.jsx:54-56 | Returns the notice `Bid failed: <message>`. Nothing in the session changes. |
| Dashboard.Session.HandleBid | src/components/Dashboard.jsx:72-76 | Emits `BID_PLACED` with the given id and amount exactly when a socket exists. Nothing in the session changes. |
| Dashboard.Session.IsWinning | src/components/Dashboard.jsx:94-101 | A card's highest-bidder flag is always false while there is no socket. |

## Left out

- The socket.io transport, the `connect` / `connect_error` status strings, `fetch` and JSON decoding, `alert` and console logging are I/O and library calls. Inbound events are method calls that carry their payloads. `alert` becomes the notice that `OnBidError` returns.
- `Date.now()` is a parameter: `now` for a tick, `clientTime` for `INITIAL_DATA`. `setInterval`'s one-second cadence is not modelled. Each `Tick` call is one firing.
- The timer's offset is fixed when its interval starts. The effect depends only on `item.endTime`, so a later offset change does not reach a running interval. A change of `endTime` is `CountdownTimer.Restart`: it keeps the text, which is component state. Mounting is the constructor and unmounting is `Dispose`.
- JavaScript numbers are unbounded integers here. Precision loss above 2^53 is not modelled.
- The 500 ms flash class (src/components/AuctionCard.jsx:28-40) is timer-driven presentation.
- JSX layout, styles and CSS variables are presentation.
- React scheduling, state batching and re-rendering are not modelled. Each handler's update is applied at once.
- `Session.SetSocket` takes the socket's current id as a value. The model does not show the library setting `socket.id` on connect. The "no id yet" case is the `SocketHandle(None)` value.
- Dashboard.IsHighestBidder: a leader field that is JSON `null` is not modelled. `None` is only an absent field (`undefined`). The id-less-socket quirk needs the field to be absent, because `undefined === null` is false.
- Item ids and socket ids are strings. A number id compared by `===` is not modelled.
- A disabled button delivers no click, which `AuctionCard.Click` relies on. This is the browser's rule for the `disabled` attribute on line 109, not code in the component.

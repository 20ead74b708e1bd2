# Chat batching and photo-browser paging, modelled in Dafny

This project models the sequential logic inside two UIKit controllers of the
swift-chat repository, with UIKit replaced by values and oracles.

**`SACChatView`**, the chat message list, has three parts.

- **Batching engine.** A reentrancy counter (`_batchRequiredCount`) and a buffer of
  update items (`_batchItems`). `_batchBegin` raises the counter and never lets it
  fall below 1. `_batchCommit` lowers it and never lets it fall below 0. When the
  counter reaches 0, the commit drains the buffer in enqueue order.
  - Every public mutator (`insert`, `update`, `remove`, `move`, `append`, and their
    multi-item forms) wraps a begin, an enqueue and a commit.
  - The model's commit returns the drained items instead of replaying them.
- **Cell identity.** The reuse identifier is the content class name, a dot, and the
  alignment raw value. Each identifier is registered with the list view the first
  time it is seen.
- **Context menu.** Copy, paste and delete are offered. Delete enqueues a remove.
  Paste enqueues a move to the last position.

**`BrowserDetailController`**, the photo browser's detail pager, has four parts.

- **Current item.** The current item is cached by its horizontal span. The
  collection view is asked for an item only on a cache miss.
- **Indicator sync.** The content offset in page widths gives the floor page, the
  ceiling page and a fractional percent. Index paths are looked up only when a
  page number changes.
- **Feedback suppression.** A flag makes the scroll handler ignore the
  notifications caused by a programmatic scroll.
- **Interactive dismiss.** The pan gesture drives a start / changed / end state
  machine. Pure predicates decide whether a gesture may begin and whether it may
  recognize together with another gesture.

Modules:

- `ChatIdentity` (chat_identity.dfy): messages and the reuse identifier.
- `ChatBatch` (chat_batch.dfy): the batching engine as functions over a `Batch`
  value, and lemmas over traces of begin, enqueue and commit calls.
- `ChatView` (chat_view.dfy): class `ChatView`, proved against `ChatBatch`.
  `batchItems`, `batchRequiredCount` and `registeredTypes` are the source's
  fields. `store` stands in for the message store `_chatViewData`.
  `registrations` is not a source field: it logs the `register(…)` calls made
  on the list view.
- `BrowserPaging` (browser_paging.dfy): the hit cache, the interpolation and the
  memoised indicator sync, as functions. Also the log of calls made on
  collaborators.
- `DismissGesture` (dismiss_gesture.dfy): the gating predicates and the dismiss
  state machine as functions, and a lemma over whole sessions.
- `BrowserDetail` (browser_detail.dfy): class `BrowserDetailController`, proved
  against `BrowserPaging` and `DismissGesture`.
- `Wrappers` (wrappers.dfy): `Option`.

How collaborators are represented:

- **Collection view.** A `Grid` value: the bounds width, `itemAt` for
  `indexPathForItem(at:)`, and `attributesOf` for `layoutAttributesForItem(at:)`.
  It is `None` where the source's optional `collectionView` is nil.
- **Lookups.** Every `indexPathForItem(at:)` query adds one to the controller's
  `lookups` counter.
- **Logged calls.** Calls on the indicator, the transition context and the
  navigation stack are appended to the `events` log.
- **Transition context.** Identified by a number.
- **`CGFloat`.** Exact reals.

Three behaviours of the code worth noting:

- `ub_transitionShouldStart` always answers yes. It hands the current index
  path, possibly nil, to the animator.
- The dismiss pan may recognize together with any gesture that is not a pan.
  With another pan, it may do so only when that pan's view sits in a canvas view.
- `modf` keeps the sign of its argument. For offsets more than one page left of
  the first page, the indicator percent is therefore negative:
  `value − ceil(value)`, in (−1, 0].

## Model

| member | source | states |
|---|---|---|
| `ChatBatch.Begin` | Classes/Chat/Controllers/SACChatView.swift:104-108 | Begin leaves the counter at least 1: one more than before if it was not negative, otherwise 1. The buffer is unchanged. |
| `ChatBatch.Commit` | Classes/Chat/Controllers/SACChatView.swift:109-122 | Above 1, a commit lowers the counter by one and drains nothing; the buffer keeps every pending item. At 1 or below, including an unbalanced commit at 0, it drains the buffer as it stands, leaves it empty and leaves the counter at 0. |
| `ChatBatch.Call` | Classes/Chat/Controllers/SACChatView.swift:63-95 | With no batch open, a begin/enqueue/commit call drains the pending items followed by its own and leaves the view idle. Inside an open batch, it only appends its items and the counter returns to its old value. |
| `ChatBatch.InsertAll` | Classes/Chat/Controllers/SACChatView.swift:68-72 | A multi-insert enqueues one insert per message, in array order, all at the same index. |
| `ChatBatch.RemoveAll` | Classes/Chat/Controllers/SACChatView.swift:85-89 | A multi-remove enqueues one remove per index, in the order given, without renumbering. |
| `ChatBatch.NestedBatch` | Classes/Chat/Controllers/SACChatView.swift:104-122 | Start idle: N begins, any enqueues, then k ≤ N commits. If k < N, nothing has drained and the buffer holds every item with the counter at N − k. At k = N there has been exactly one drain, holding every enqueued item once, in order, and the view is idle. |
| `ChatBatch.UnbalancedCommit` | Classes/Chat/Controllers/SACChatView.swift:109-118 | A commit with the counter at 0 or below still drains, possibly an empty sequence, and leaves the counter at 0. |
| `ChatBatch.BusyWork` | Classes/Chat/Controllers/SACChatView.swift:63-122 | Inside an open batch, any well-bracketed nest of begin/enqueue/commit calls drains nothing. It appends its items in order and restores the counter. |
| `ChatBatch.IdleBracket` | Classes/Chat/Controllers/SACChatView.swift:63-122 | A balanced nest opened with no batch open drains exactly once, at its final commit. The drain holds what was pending and then every item enqueued anywhere inside the nest, each once and in enqueue order. |
| `ChatIdentity.Description` | Classes/Chat/Controllers/SACChatView.swift:184-185 | The interpolated rendering of the alignment raw value is non-empty and contains no dot. It starts with a minus sign exactly for negative values. |
| `ChatIdentity.ReuseIdentifier` | Classes/Chat/Controllers/SACChatView.swift:183-185 | The identifier starts with the content class name and a dot. No dot follows that one. |
| `ChatIdentity.ReuseIdentifierKey` | Classes/Chat/Controllers/SACChatView.swift:183-185 | Two messages share an identifier exactly when their content class and alignment agree. The show-card and show-avatar flags never matter, and class names may contain dots. |
| `ChatView.CanPerformAction` | Classes/Chat/Controllers/SACChatView.swift:281-292 | The menu offers exactly copy, paste and delete. |
| `ChatView.MenuRequest` | Classes/Chat/Controllers/SACChatView.swift:293-303 | Delete requests `Remove(item)`. Paste requests `Move(item, count − 1)`. Copy and any other action request nothing. |
| `ChatView.ChatView.constructor` | Classes/Chat/Controllers/SACChatView.swift:124-147 | A new view is idle: counter 0, empty buffer, nothing registered. |
| `ChatView.ChatView.BatchBegin` | Classes/Chat/Controllers/SACChatView.swift:104-108 | The counter field is updated as `Begin` says; the buffer is untouched. |
| `ChatView.ChatView.BatchCommit` | Classes/Chat/Controllers/SACChatView.swift:109-122 | The fields and the returned drain are exactly `Commit` of the old fields. |
| `ChatView.ChatView.Insert` | Classes/Chat/Controllers/SACChatView.swift:63-67 | The call is `Call` with one insert at the index. |
| `ChatView.ChatView.InsertContents` | Classes/Chat/Controllers/SACChatView.swift:68-72 | The call is `Call` with `InsertAll` of the messages at the one index. |
| `ChatView.ChatView.Update` | Classes/Chat/Controllers/SACChatView.swift:74-78 | The call is `Call` with one update at the index. |
| `ChatView.ChatView.Remove` | Classes/Chat/Controllers/SACChatView.swift:80-84 | The call is `Call` with one remove at the index. |
| `ChatView.ChatView.RemoveContents` | Classes/Chat/Controllers/SACChatView.swift:85-89 | The call is `Call` with `RemoveAll` of the indices. |
| `ChatView.ChatView.Move` | Classes/Chat/Controllers/SACChatView.swift:91-95 | The call is `Call` with one move. |
| `ChatView.ChatView.Append` | Classes/Chat/Controllers/SACChatView.swift:97-99 | Appending inserts at the store's current count. |
| `ChatView.ChatView.AppendContents` | Classes/Chat/Controllers/SACChatView.swift:100-102 | Appending several messages inserts them all at the store's current count. |
| `ChatView.ChatView.CellForItem` | Classes/Chat/Controllers/SACChatView.swift:180-193 | The cell is dequeued under the message's reuse identifier. The identifier is registered only if not registered before, so there is at most one registration per identifier (kept in `Valid`). The registered set only grows. |
| `ChatView.ChatView.PerformAction` | Classes/Chat/Controllers/SACChatView.swift:293-303 | Delete and paste issue the call that `MenuRequest` names. Copy and other actions leave the batch state alone and drain nothing. |
| `ChatView.CoalescedInserts` | Classes/Chat/Controllers/SACChatView.swift:63-122 | Three inserts at index 0, made by two calls inside an outer batch, drain nothing themselves. The outer commit drains exactly those three inserts, in order. |
| `BrowserPaging.LocateCurrent` | Projects/Ubiquity/Ubiquity/Browser/BrowserDetailController.swift:231-250 | No lookup is issued exactly on a cache hit (the cached span contains the viewport centre), and a hit changes nothing. A miss issues one lookup. If it finds nothing, the old item and index path stay. Otherwise both come from the found item's attributes, and both are nil when the attributes are missing. |
| `BrowserPaging.CachedSpanNeedsNoLookup` | Projects/Ubiquity/Ubiquity/Browser/BrowserDetailController.swift:237-240 | Once an item is cached, any later update whose centre lies in its span issues no lookup and changes nothing. |
| `BrowserPaging.Interpolate` | Projects/Ubiquity/Ubiquity/Browser/BrowserDetailController.swift:256-259 | `from` is the floor and `to` the ceiling, so `from ≤ to ≤ from + 1`, with `to = from` exactly on page boundaries. The percent is the distance past `from`, in [0, 1), whenever the value is −1 or more. |
| `BrowserPaging.InterpolationExamples` | Projects/Ubiquity/Ubiquity/Browser/BrowserDetailController.swift:256-259 | 1.5 pages gives (1, 2, 0.5); 0 gives (0, 0, 0); 3 gives (3, 3, 0). |
| `BrowserPaging.SyncIndicator` | Projects/Ubiquity/Ubiquity/Browser/BrowserDetailController.swift:251-278 | A page number equal to the memoised one reuses its index path. A changed one is looked up at the page centre and memoised. The lookup count is the number of changed pages. The indicator is told the memoised paths and the percent every time. |
| `BrowserPaging.FirstSyncLooksUp` | Projects/Ubiquity/Ubiquity/Browser/BrowserDetailController.swift:261-275 | With nothing memoised, a sync looks up both pages. |
| `BrowserPaging.SyncMemoised` | Projects/Ubiquity/Ubiquity/Browser/BrowserDetailController.swift:261-277 | A second sync on the same pair of pages issues no lookup and reports the same index paths. |
| `DismissGesture.SteepEnoughIsRatio` | Projects/Ubiquity/Ubiquity/Browser/BrowserDetailController.swift:372 | The division-free angle test `|vx| < 1.5·|vy|` refuses vy = 0. Everywhere else it agrees with `|vx / vy| < 1.5`. |
| `DismissGesture.ShouldBegin` | Projects/Ubiquity/Ubiquity/Browser/BrowserDetailController.swift:368-386 | Non-dismiss gestures always begin. The dismiss pan begins exactly when it is steep, the last visible cell is a detail cell, and the point is not below the view's height. |
| `DismissGesture.ShouldBeginExamples` | Projects/Ubiquity/Ubiquity/Browser/BrowserDetailController.swift:368-386 | Velocity (0, 10) begins. (20, 10) and (0, 0) are refused. |
| `DismissGesture.RecognizeSimultaneously` | Projects/Ubiquity/Ubiquity/Browser/BrowserDetailController.swift:388-405 | Refused for non-dismiss gestures and while a session is interactive. Otherwise allowed with any non-pan gesture, and with a pan exactly when that pan is on a canvas view. |
| `DismissGesture.ShouldStartInteractive` | Projects/Ubiquity/Ubiquity/Browser/BrowserDetailController.swift:527-535 | A transition runs interactively exactly when the pan has begun or is changing. |
| `DismissGesture.MayStart` | Projects/Ubiquity/Ubiquity/Browser/BrowserDetailController.swift:409-424 | A dismiss starts exactly when all of these hold: it moves down (vy > 0); it is steep; a detail cell with a detail view is last on screen; and the touch is above its place in the view, or the detail is no taller than the view. |
| `DismissGesture.MayStartExamples` | Projects/Ubiquity/Ubiquity/Browser/BrowserDetailController.swift:409-424 | Velocity (0, 10) starts. (20, 10) and an upward (0, −10) do not. |
| `DismissGesture.DismissPercent` | Projects/Ubiquity/Ubiquity/Browser/BrowserDetailController.swift:457-463 | The percent lies in [0, 1]. It is 0 for upward drags and 1 past three fifths of the screen height. In between, it is the drag over three fifths of the height. |
| `DismissGesture.DismissStep` | Projects/Ubiquity/Ubiquity/Browser/BrowserDetailController.swift:407-486 | Idle: an event passing `MayStart` starts a session at its window location and requests the pop or dismiss; any other event changes nothing. Interactive and changed: the session is unchanged and the attached context, if any, receives the clamped percent and offset. Interactive otherwise: the attached context receives complete iff the state is ended and vy ≥ 0; the context is detached and the session ends. |
| `DismissGesture.CompletedAtMostOnce` | Projects/Ubiquity/Ubiquity/Browser/BrowserDetailController.swift:480-485 | Suppose every attach brings a new context. Then over any run of pan events, attaches and detaches, no context receives two completion signals, and a context never attached receives none. |
| `BrowserDetail.BrowserDetailController.constructor` | Projects/Ubiquity/Ubiquity/Browser/BrowserDetailController.swift:19-32 | A new controller has the given index path current. Nothing is cached or memoised, no session runs, and changes are not ignored. |
| `BrowserDetail.BrowserDetailController.UpdateCurrentItem` | Projects/Ubiquity/Ubiquity/Browser/BrowserDetailController.swift:231-250 | The fields and the lookup count move as `LocateCurrent` says for the viewport centre. Without a collection view, nothing changes. |
| `BrowserDetail.BrowserDetailController.UpdateCurrentIndexForIndicator` | Projects/Ubiquity/Ubiquity/Browser/BrowserDetailController.swift:251-278 | The memo fields, the lookup count and the indicator update follow `SyncIndicator`. Without a collection view, nothing changes. |
| `BrowserDetail.BrowserDetailController.ScrollViewDidScroll` | Projects/Ubiquity/Ubiquity/Browser/BrowserDetailController.swift:188-200 | Nothing changes for another scroll view or while changes are ignored. Otherwise the current item is updated, and then the indicator. |
| `BrowserDetail.BrowserDetailController.PerformWithoutContentOffsetChange` | Projects/Ubiquity/Ubiquity/Browser/BrowserDetailController.swift:294-301 | The flag is set during the scroll (logged as suppressed) and cleared afterwards. The scroll notification it triggers issues no lookup and leaves the paging state unchanged. |
| `BrowserDetail.BrowserDetailController.IndicatorDidSelectItem` | Projects/Ubiquity/Ubiquity/Browser/BrowserDetailController.swift:608-627 | Selecting the current index path does nothing. Any other index path becomes current, with its attributes, and is scrolled to under suppression with no lookup. |
| `BrowserDetail.BrowserDetailController.Dismiss` | Projects/Ubiquity/Ubiquity/Browser/BrowserDetailController.swift:407-486 | The session fields and the logged calls move as `DismissStep` says. |
| `BrowserDetail.BrowserDetailController.TransitionShouldStart` | Projects/Ubiquity/Ubiquity/Browser/BrowserDetailController.swift:521-526 | Always yes. The animator receives the current index path. |
| `BrowserDetail.BrowserDetailController.TransitionDidStart` | Projects/Ubiquity/Ubiquity/Browser/BrowserDetailController.swift:557-559 | The context is attached. |
| `BrowserDetail.BrowserDetailController.TransitionDidEnd` | Projects/Ubiquity/Ubiquity/Browser/BrowserDetailController.swift:560-562 | The context is detached. |

## Left out

- Replay of a drained batch (`SACChatViewUpdate.apply`) is not part of this model. Neither is the message store (`SACChatViewData`) that replay mutates. `ChatView.store` is fixed at construction and read only by `append`, `paste` and `cellForItemAt`.
- Locking is not modelled: `objc_sync_enter`/`exit` around the batch state and around the ignore flag, including the `ignoreContentOffsetChange` getter, which enters its lock twice and never exits. The model is single-threaded, so it makes no claim about concurrent producers. `_batchBegin` and `_batchCommit` are private, and every mutator runs begin, append, commit with nothing in between. A mutator therefore finds a batch already open only while another caller is inside a mutator. `ChatBatch.NestedBatch`, `ChatBatch.BusyWork`, `ChatBatch.IdleBracket` and `ChatView.CoalescedInserts` describe that overlap, taken as an interleaving of whole begin, enqueue and commit steps. `CoalescedInserts` opens its outer batch directly, which no caller outside the class can do.
- UIKit setup, styling and geometry are not modelled. This covers `loadView`, `viewDidLoad`, the appearance hooks, the toolbar, the flow-layout spacing, the `sizeFor*`/`insetFor*` constants, `willDisplay` cell configuration, the data-source item counts, and `shouldShowMenuForItemAt`, which always answers yes.
- `ChatView.ChatView.CellForItem`: the unused `options` hash computed from the show-card and show-avatar flags is not modelled; nothing reads it. The dequeued cell is represented by the identifier it is dequeued under.
- `ChatView.ChatView.CellForItem` requires an index below the store's count. The source subscripts the store unchecked, and UIKit only asks for items below the count that `numberOfItemsInSection` reports. An out-of-range index would trap; the model excludes it.
- `ChatIdentity.Message`: `SACMessageAlignment` is not part of this model. The alignment is represented by its integer raw value, rendered as string interpolation renders an `Int`.
- The asynchronous pop/dismiss that starts a session is represented only by a `DismissRequested` event.
- Other UI side effects are not modelled: the content-offset reset of visible cells at the end of a session, logging, and all commented-out code.
- `ub_transitionView` is not modelled; it returns the cell at the animator's index path.
- `ub_transitionDidPrepare` is not modelled. It scrolls the target into view without ignoring content-offset changes. Its scroll notification therefore runs the ordinary update (`ScrollViewDidScroll`), lookups included.
- The scroll-view drag callbacks are not modelled: `scrollViewWillBeginDragging`, `scrollViewDidEndDragging` and `scrollViewDidEndDecelerating`. They tell the indicator that interactive movement begins or ends.
- The indicator drag callbacks are not modelled either: `indicatorWillBeginDragging` and `indicatorDidEndDragging`. They switch collection-view scrolling and the dismiss recognizer off and on.
- `BrowserDetail.BrowserDetailController.PerformWithoutContentOffsetChange` takes no closure, unlike the source's generic version. It performs the one action the controller passes it: a scroll to an index path, which delivers one scroll notification at the landing offset. The landing offset is a parameter because UIKit computes it.
- Floating point is not modelled: `CGFloat` is an exact real, with no NaN, infinity or rounding. `Int(ceil(...))`/`Int(floor(...))` overflow is not modelled either.
- `BrowserDetail.BrowserDetailController.UpdateCurrentIndexForIndicator` requires a non-zero bounds width. With width 0 the source converts an infinite or NaN value to `Int`, which traps.
- `DismissGesture.DismissPercent` requires a positive screen height, which `UIScreen.main.bounds` always has.
- Gesture locations and velocities come from the recognizer and are parameters: `PanSample`, and the velocity and point passed to `ShouldBegin`. Whether the last visible cell is a detail cell, and the other gesture's kind, are parameters too (`VisibleCell`, `OtherGesture`).

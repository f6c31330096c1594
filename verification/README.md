# Collaborative whiteboard: synchronisation core in Dafny

This project models the core of a collaborative whiteboard and proves properties of that model. Several people draw on a shared canvas. Each browser keeps a local copy of the drawing. A relay server keeps the shared list of elements and forwards every edit to the other participants.

The model has four parts:

- **The document store** (`DrawingStore`, in store.dfy).
  - Each store action is a pure transition on a record of elements, users, a history of snapshots and a redo stack.
  - Undo and redo are proved to move along a fixed *Timeline*: the history, then the current list, then the redo stack.
  - A new edit cuts the Timeline after the current position.
- **The relay server** (`Relay`, in relay.dfy).
  - `Step` and `Close` are the specification functions for one message and for one disconnect.
  - Class `RelayServer` performs the same work in place, with loops over the client map.
  - Connections are numbers. A set of open connection ids stands in for each socket's ready state, and every send is recorded in an outbox.
  - JavaScript `Map`s are insertion-ordered association lists (`OrderedMap`, in ordered_map.dfy), so broadcast order is registration order.
- **The client glue**:
  - The connection hook: the join message, the roster reducer and the `sendMessage` guard (`Socket`).
  - The message handler and the local edit handlers of the application component (`App`).
- **The canvas**:
  - Hit-testing over real coordinates (`Geometry`). Every square-root comparison is replaced by a comparison of squares.
  - The gesture handlers (`Canvas`): element construction on mouse-up and text submit, selection, and the eraser sweep.

Some behaviours of the code are easy to misread. The model states them as the code has them:

- **Remote edits are undoable.** Remote `element_added` and `element_deleted`, and every `initial_state` element, go through `addElement`/`removeElement` (src/App.tsx:41, 51, 57). Those functions push history. `App.RemoteAddIsUndoable`, `App.RemoteDeleteIsUndoable` and `App.SnapshotIsUndoable` state the consequence.
- **Deletes stop at the server.**
  - The client sends the id as a bare string (src/App.tsx:96), but the server filters on `data.id` (src/server/websocketServer.js:96). A string has no `id`, so the server keeps the element and later joiners receive it.
  - `Relay.BareIdDeleteRemovesNothing` and `App.RemovalStopsAtServer` state this.
  - Where an id does match, the server removes every element with it.
- **Clearing is local only.** The server handles `clear_canvas` (src/server/websocketServer.js:109-112), but no client sends it: clearing only changes the local store (src/App.tsx:121-124). The client's message-type union does not even list it (src/types/drawing.ts:39).
- **`isConnected` is always true.** The hook never sets it to false, so `sendMessage` only checks that a socket exists.

## Model

| member | source | states |
|---|---|---|
| Types.KeepOthers | src/store/drawingStore.ts:56 | an element survives the filter iff it was in the list and its id differs from the key; with no match the list is unchanged; never longer |
| Types.KeepOthersAppend | src/store/drawingStore.ts:56 | filtering distributes over concatenation, so survivors keep their order |
| Types.KeepOthersIdempotent | src/server/websocketServer.js:96 | filtering twice by the same key is filtering once |
| OrderedMap.Get | src/server/websocketServer.js:101-102 | `get` finds a value exactly when `has` holds, and the value is one of the map's values |
| OrderedMap.Set | src/server/websocketServer.js:59-60 | after `set`, the key maps to the new value and every other key is unchanged; an existing key keeps its position, a new key is appended; keys stay unique |
| OrderedMap.Delete | src/server/websocketServer.js:33-34 | after `delete`, the key is absent, every other key keeps its value, keys stay unique |
| OrderedMap.DeleteAbsent | src/server/websocketServer.js:33-34 | deleting an absent key leaves the map unchanged |
| OrderedMap.DeleteKeepsOrder | src/server/websocketServer.js:33 | on a map, deleting the key at position i removes exactly entry i and keeps the others in order |
| DrawingStore.TimelineDetermines | src/store/drawingStore.ts:83-103 | the Timeline, the position in it and the users determine the whole store |
| DrawingStore.AddElement | src/store/drawingStore.ts:41-45 | appends the element; the Timeline is cut after the current list and the new list is appended; one more history entry; redo emptied; users untouched |
| DrawingStore.UpdateElement | src/store/drawingStore.ts:47-51 | every element with the id gets the patch merged in, the others are unchanged; length, history, redo stack and users untouched |
| DrawingStore.MergeWhere | src/store/drawingStore.ts:48-50 | position by position, matching elements are merged and the rest are kept; same length |
| DrawingStore.RemoveElement | src/store/drawingStore.ts:53-57 | keeps exactly the elements whose id differs; an absent id leaves the list unchanged but still records an undo step; redo emptied |
| DrawingStore.SetUsers | src/store/drawingStore.ts:59 | replaces the users and nothing else |
| DrawingStore.UpdateUser | src/store/drawingStore.ts:61-65 | every user with the id gets the patch merged in, the others are unchanged; elements and both stacks untouched |
| DrawingStore.MergeUserWhere | src/store/drawingStore.ts:62-64 | position by position, matching users are merged and the rest are kept; same length |
| DrawingStore.ClearCanvas | src/store/drawingStore.ts:77-81 | empties the list, cuts the Timeline after the current list and appends the empty list, empties redo |
| DrawingStore.Undo | src/store/drawingStore.ts:83-92 | with empty history nothing changes; otherwise the Timeline is unchanged and the position moves back by one |
| DrawingStore.Redo | src/store/drawingStore.ts:94-103 | with an empty redo stack nothing changes; otherwise the Timeline is unchanged and the position moves forward by one |
| DrawingStore.CanUndo | src/store/drawingStore.ts:105 | true iff the history is non-empty, iff undo would change the store |
| DrawingStore.CanRedo | src/store/drawingStore.ts:106 | true iff the redo stack is non-empty, iff redo would change the store |
| DrawingStore.UndoThenRedo | src/store/drawingStore.ts:83-103 | with a non-empty history, redo after undo restores the store exactly |
| DrawingStore.RedoThenUndo | src/store/drawingStore.ts:83-103 | with a non-empty redo stack, undo after redo restores the store exactly |
| DrawingStore.UndoRevertsAdd | src/store/drawingStore.ts:41-92 | undo after an add gives back the previous store, with the added list as the only redo entry |
| DrawingStore.UndoTimesWalksBack | src/store/drawingStore.ts:83-92 | k undos, k at most the history length, keep the Timeline and land k places back |
| DrawingStore.AddAllSteps | src/store/drawingStore.ts:41-45 | n adds append the n elements in order and push n history entries, the k-th holding the list before the k-th add |
| DrawingStore.UndoAllAdds | src/store/drawingStore.ts:41-92 | n adds followed by n undos give back the original list |
| Geometry.Nearest | src/components/DrawingCanvas.tsx:431-446 | the measured point is the point of the segment at the clamped projection parameter |
| Geometry.SegmentDistSq | src/components/DrawingCanvas.tsx:423-451 | the squared distance to a segment is non-negative and zero at either endpoint |
| Geometry.EndsAreNearest | src/components/DrawingCanvas.tsx:431-446 | the start is its own nearest point; the end is at distance zero, also for a degenerate segment |
| Geometry.NearestIsClosest | src/components/DrawingCanvas.tsx:423-451 | no point of the segment is closer than the measured point |
| Geometry.SqrtFreeTests | src/components/DrawingCanvas.tsx:172-174 | comparisons of squares agree with the source's comparisons of square roots, including the widened circle test |
| Geometry.NearSegment | src/components/DrawingCanvas.tsx:369-378 | true iff some consecutive pair of points forms a segment within the limit |
| Geometry.TextWidth | src/components/DrawingCanvas.tsx:411 | the approximate width of a text is non-negative |
| Geometry.IsPointInElement | src/components/DrawingCanvas.tsx:367-421 | the selection test per type: a pen within 10 of one of its segments, a rectangle inside the box of its two corners, a circle within its radius of the centre, an arrow within 10 of its segment, a text inside the box from its anchor 10 per character wide and 16 high; the contract proves that erasers, shapes with fewer than two points and texts without an anchor are never hit |
| Geometry.EraserHitsPoint | src/components/DrawingCanvas.tsx:141-201 | the eraser test per type: the selection test widened by 10 (the circle's radius grows by 10); the contract proves the same never-hit cases, and that for pens, rectangles, arrows and texts every selection hit is an eraser hit |
| Geometry.CheckEraserIntersection | src/components/DrawingCanvas.tsx:137-204 | true iff some point of the path passes the widened per-type test; never for an empty path |
| Geometry.FindElementAtPoint | src/components/DrawingCanvas.tsx:356-365 | none iff no element is hit; otherwise a hit element with no hit element above it |
| Geometry.PointHitIsEraserHit | src/components/DrawingCanvas.tsx:367-421 | a point that selects an element also erases it; for pens and arrows the two tests coincide |
| Geometry.RectangleCornersCommute | src/components/DrawingCanvas.tsx:380-388 | swapping the two corners of a rectangle never changes a hit |
| Geometry.DotPenIsNeverHit | src/components/DrawingCanvas.tsx:369-378 | a pen stroke of fewer than two points is never selected or erased |
| Geometry.WorkedExamples | src/components/DrawingCanvas.tsx:380-388 | a point inside and one outside a rectangle, and a point on a segment at distance zero |
| Canvas.Decimal | src/components/DrawingCanvas.tsx:537 | the rendered clock reading is a non-empty string of digits without a leading zero |
| Canvas.DecimalRoundTrip | src/components/DrawingCanvas.tsx:537 | reading the digits back gives the number |
| Canvas.ElementId | src/components/DrawingCanvas.tsx:537 | an id is the user id, a dash, then only digits |
| Canvas.ElementIdInjective | src/components/DrawingCanvas.tsx:537 | equal ids come from the same user id and the same clock reading |
| Canvas.LeadingSpace | src/components/DrawingCanvas.tsx:602 | the leading run of white space, maximal |
| Canvas.TrailingSpace | src/components/DrawingCanvas.tsx:602 | the trailing run of white space, maximal |
| Canvas.Trim | src/components/DrawingCanvas.tsx:602 | empty iff the input is all white space; otherwise a slice with white space only around it and no white space at either end |
| Canvas.TrimPadding | src/components/DrawingCanvas.tsx:611 | trimming a text without outer white space, padded with white space, gives the text back |
| Canvas.TrimIdempotent | src/components/DrawingCanvas.tsx:611 | trimming twice is trimming once |
| Canvas.ShapeOf | src/components/DrawingCanvas.tsx:535-587 | exactly the pen, rectangle, circle and arrow tools create an element type |
| Canvas.GestureElement | src/components/DrawingCanvas.tsx:534-587 | an element exists iff the path is non-empty and the tool is the pen, or a shape tool with exactly two points; it carries the path, the id, the author, the colour and stroke width 2 |
| Canvas.DrawnElementIsHitAlongItsPath | src/components/DrawingCanvas.tsx:534-587 | a drawn element is selected and erased at every point of its path iff the path has at least two points |
| Canvas.TextElement | src/components/DrawingCanvas.tsx:601-615 | no element iff the input is all white space; otherwise a text element at the box's position holding the trimmed input |
| Canvas.TextElementIsHitAtItsAnchor | src/components/DrawingCanvas.tsx:601-615 | a submitted text is non-empty, unpadded and already trimmed, and its element is hit at its anchor |
| Canvas.SweptIds | src/components/DrawingCanvas.tsx:511-517 | reports only ids not erased before the move; reports every touched element whose id was not erased; every reported id belongs to a touched element |
| Canvas.Sweep | src/components/DrawingCanvas.tsx:508-517 | the loop reports exactly the swept ids, in element order, and the new set is the old set plus those ids |
| Canvas.SweepsAreDisjoint | src/components/DrawingCanvas.tsx:503-521 | a later sweep in the same gesture, over the list as it then is and along any path, never reports an id an earlier one reported |
| Canvas.SweepIsIdempotent | src/components/DrawingCanvas.tsx:503-521 | sweeping again from a set that holds what was removed removes nothing |
| Canvas.Canvas.constructor | src/components/DrawingCanvas.tsx:32-40 | the component starts idle, with an empty path, an empty erased set, no selection and a closed text box |
| Canvas.Canvas.MouseDown | src/components/DrawingCanvas.tsx:463-481 | select stores the topmost hit id or none; text opens the box at the pointer; the drawing tools start a gesture at the pointer; everything else is kept |
| Canvas.Canvas.MouseMove | src/components/DrawingCanvas.tsx:500-525 | while drawing, the pen and eraser extend the path, the shape tools keep the start and move the end; the eraser reports the swept ids and only adds to the erased set |
| Canvas.Canvas.MouseUp | src/components/DrawingCanvas.tsx:534-591 | a gesture in progress ends with the element its tool and path make, and the path is cleared; otherwise nothing happens |
| Canvas.Canvas.EditText | src/components/DrawingCanvas.tsx:657 | the text box holds the typed value |
| Canvas.Canvas.TextSubmit | src/components/DrawingCanvas.tsx:601-620 | creates the text element of the input; only then clears and closes the box |
| Canvas.Canvas.KeyDown | src/components/DrawingCanvas.tsx:622-629 | Enter submits, Escape clears and closes the box without creating anything, other keys do nothing |
| Relay.Fanout | src/server/websocketServer.js:119-131 | every send carries the message to an open connection other than the excluded one, at most one per client |
| Relay.FanoutReachesEligible | src/server/websocketServer.js:122-123 | every send goes to a registered connection, and every registered, open, not-excluded connection receives the message |
| Relay.FanoutStep | src/server/websocketServer.js:122-130 | one more client adds at most its own send, after the earlier ones |
| Relay.FirstWithId | src/server/websocketServer.js:88 | `findIndex`: the first index whose id matches, or none iff no element matches |
| Relay.UpdateFirst | src/server/websocketServer.js:88-91 | merges the payload into the first matching element only; no match leaves the list unchanged; length kept |
| Relay.Step | src/server/websocketServer.js:54-117 | keeps the server consistent; the sender gets only the snapshot; relays go to open connections; each type changes only its own part of the state; unknown types, `initial_state` and `user_left` do nothing |
| Relay.Joined | src/server/websocketServer.js:58-80 | a join keeps the server consistent and never touches the elements |
| Relay.Receive | src/server/websocketServer.js:19-26 | a frame that does not parse changes nothing; the sender only ever receives `initial_state` |
| Relay.FirstClientOn | src/server/websocketServer.js:31-32 | the first client entry bound to the connection, or none iff there is none |
| Relay.Close | src/server/websocketServer.js:28-46 | an unregistered connection changes nothing; otherwise that entry's key is removed from clients and users, all other keys keep their values, and `user_left` goes to the others |
| Relay.CloseRemovesFirstEntry | src/server/websocketServer.js:31-34 | closing removes exactly the first client entry bound to the connection, keeping the others in order |
| Relay.DeleteIsIdempotent | src/server/websocketServer.js:95-98 | the same delete twice leaves the list a single delete leaves |
| Relay.BareIdDeleteRemovesNothing | src/server/websocketServer.js:95-98 | a delete whose payload is a bare id string changes no state and is still relayed |
| Relay.JoinRegistersAndSnapshots | src/server/websocketServer.js:58-80 | a join registers the connection and the user, sends the joiner a snapshot of the elements and of users including itself, then relays to the others |
| Relay.CursorFromUnknownUser | src/server/websocketServer.js:100-107 | a cursor from an unknown user changes nothing and is relayed |
| Relay.SetAbsentAppends | src/server/websocketServer.js:59-60 | setting a new key appends the entry |
| Relay.DeleteAppended | src/server/websocketServer.js:33-34 | deleting the key just appended gives back the map |
| Relay.JoinAppends | src/server/websocketServer.js:58-65 | a join under a new id appends the connection and the user |
| Relay.CloseLastEntry | src/server/websocketServer.js:28-46 | closing the connection of a newly appended entry removes it and its user |
| Relay.JoinThenCloseRestores | src/server/websocketServer.js:28-65 | a new connection that joins under a new id and then closes leaves the server as it was |
| Relay.AdditionsKeepArrivalOrder | src/server/websocketServer.js:82-85 | a run of additions appends their elements in arrival order |
| Relay.RunKeepsConsistent | src/server/websocketServer.js:19-26 | any run of frames keeps the server consistent |
| Relay.RelayServer.constructor | src/server/websocketServer.js:8-10 | the server starts with no elements, clients or users |
| Relay.RelayServer.Broadcast | src/server/websocketServer.js:119-131 | the loop appends exactly the sends of `Fanout`, in registration order |
| Relay.RelayServer.HandleMessage | src/server/websocketServer.js:54-117 | the new state and the new sends are those of `Step` |
| Relay.RelayServer.Join | src/server/websocketServer.js:58-80 | the new state and the new sends are those of `Joined` |
| Relay.RelayServer.Add | src/server/websocketServer.js:82-85 | as `Step` for `element_added` |
| Relay.RelayServer.Update | src/server/websocketServer.js:87-93 | as `Step` for `element_updated` |
| Relay.RelayServer.Remove | src/server/websocketServer.js:95-98 | as `Step` for `element_deleted` |
| Relay.RelayServer.MoveCursor | src/server/websocketServer.js:100-107 | as `Step` for `cursor_moved` |
| Relay.RelayServer.OnMessage | src/server/websocketServer.js:19-26 | as `Receive`: a frame that does not parse is dropped |
| Relay.RelayServer.FindClientOn | src/server/websocketServer.js:31-32 | the scan stops at the first entry bound to the connection |
| Relay.RelayServer.OnClose | src/server/websocketServer.js:28-46 | the new state and the new sends are those of `Close` |
| Socket.JoinName | src/hooks/useWebSocket.ts:21 | "User " followed by the first six characters of the id, or the whole id when it is shorter |
| Socket.JoinMessage | src/hooks/useWebSocket.ts:19-24 | a `user_joined` carrying the local id, both as sender and in the payload, with the derived name |
| Socket.Listed | src/hooks/useWebSocket.ts:43 | true iff some roster entry has the id |
| Socket.DropUser | src/hooks/useWebSocket.ts:63 | keeps exactly the users with another id; no match leaves the roster unchanged; ids stay unique |
| Socket.DropUserAppend | src/hooks/useWebSocket.ts:63 | filtering distributes over concatenation, so the kept users keep their order |
| Socket.RosterAfter | src/hooks/useWebSocket.ts:33-67 | ids stay unique; other types never change the roster; a join only appends, at most one entry; a leave only removes |
| Socket.JoinAddsUnlistedUser | src/hooks/useWebSocket.ts:36-52 | a complete join appends the user for a new id and changes nothing for a listed one |
| Socket.LeaveDropsUser | src/hooks/useWebSocket.ts:57-63 | a leave with an id removes every entry with that id and keeps the rest |
| Socket.IncompletePayloadKeepsRoster | src/hooks/useWebSocket.ts:36-65 | a join whose payload lacks `userId` or `name`, and a leave whose payload lacks `userId`, leave the roster unchanged |
| Socket.JoinMessageIsUnderstood | src/hooks/useWebSocket.ts:19-52 | another client's roster learns the joining user, under its derived name, from the join message |
| Socket.JoinThenLeave | src/hooks/useWebSocket.ts:33-67 | a join and then a leave of a new id give back the roster |
| Socket.Socket.constructor | src/hooks/useWebSocket.ts:5-7 | the hook starts connected, without a socket, with an empty roster and nothing sent |
| Socket.Socket.Connect | src/hooks/useWebSocket.ts:10-13 | a socket now exists |
| Socket.Socket.OnOpen | src/hooks/useWebSocket.ts:15-25 | sends the join message |
| Socket.Socket.SendMessage | src/hooks/useWebSocket.ts:95-105 | sends iff a socket exists, stamping the local id and the time; otherwise sends nothing |
| Socket.Socket.UpdateRoster | src/hooks/useWebSocket.ts:33-67 | the roster becomes the reducer's result and ids stay unique |
| App.Dispatch | src/App.tsx:35-76 | throws exactly on a null `initial_state` and on a null cursor from another user; the three edit types from the local id, and every other type, leave the store unchanged; only `initial_state` changes the number of users |
| App.SnapshotIsUndoable | src/App.tsx:37-47 | a snapshot appends its elements in order, one history entry each, replaces the users if it has them, and as many undos return to the old list |
| App.UndoIgnoresUsers | src/App.tsx:43-45 | replacing the users before undoing changes only the users of the result |
| App.RemoteAddIsUndoable | src/App.tsx:49-53 | another user's addition goes through `addElement`, and one undo takes it out again |
| App.RemoteDeleteIsUndoable | src/App.tsx:55-59 | another user's deletion adds one history entry, and one undo restores the list |
| App.RemoteCursorMovesThatUser | src/App.tsx:61-66 | another user's cursor is handled by `updateUser`: that user's cursor becomes the reported position, every other user is kept, and elements, history and redo are untouched |
| App.Deliver | src/App.tsx:78-82 | a frame keeps roster ids unique; a bad frame changes nothing; join and leave leave the document untouched, and a changed roster is copied into the store |
| App.AdditionPropagates | src/App.tsx:84-90 | a local addition reaches the server's list and is relayed to the others, and another client adds it to its store |
| App.RemovalStopsAtServer | src/App.tsx:92-98 | a local removal leaves the server unchanged, while another client still removes the element |
| App.LeaveNoticeReachesRoster | src/App.tsx:80-82 | the server's `user_left` removes the user from another client's roster and from its store's users, and leaves the elements alone |
| App.App.constructor | src/App.tsx:14-33 | the component starts with the initial store and a fresh hook for its id |
| App.App.HandleWebSocketMessage | src/App.tsx:35-76 | the loop over the snapshot adds each element in turn; the store becomes `Dispatch`'s result, and is unchanged when the handler throws |
| App.App.OnFrame | src/App.tsx:78-82 | the store and roster become those of `Deliver` |
| App.App.HandleElementAdded | src/App.tsx:84-90 | adds locally, then sends one `element_added` carrying the element, if a socket exists |
| App.App.HandleElementRemoved | src/App.tsx:92-98 | removes locally, then sends one `element_deleted` carrying the bare id, if a socket exists |
| App.App.HandleCursorMove | src/App.tsx:100-106 | moves the local user's cursor, then sends one `cursor_moved`, if a socket exists |
| App.App.HandleClearCanvas | src/App.tsx:121-124 | clears the local store and sends nothing |

## Left out

- Rendering and presentation: drawing elements and cursors, the toolbar, the user list, the theme and image export. None of it changes the synchronised state.
- Transport: creating the WebSocket, the three-second reconnect timer, cleanup on unmount, the HTTP listener and the socket error handlers. JSON encoding is left out too. Messages are decoded values, and a frame that does not parse is the `Malformed` input.
- Send failures inside `broadcast`: these are caught and skipped. The model treats a send to an open connection as delivered.
- Panning and zooming: the viewport arithmetic, `getMousePos`, the Ctrl/middle-button pan gesture and the wheel handler. Pointer positions are given in canvas coordinates.
- Floating point: coordinates are exact reals. `Math.sqrt` comparisons become comparisons of squares, and rounding is not modelled.
- Randomness and clocks: random user ids and colours, and every `Date.now()` reading, are parameters.
- React scheduling: batched `setState`, and the stale `erasedElements` captured by a render. Each handler runs on the state the previous one left.
- The cursor report that `handleMouseMove` sends before anything else belongs to `App.App.HandleCursorMove`, not to `Canvas.Canvas.MouseMove`.
- Relay.Step: an `element_added` whose payload is not a whole element is stored by the server as it is. The model has typed elements, so it keeps the list unchanged instead.
- App.Dispatch: an `element_added` from another user whose payload is not a whole element is added by the source as it is. The model keeps the store unchanged instead.
- App.Dispatch: an `initial_state` whose `elements` or `users` field is present but not an array, or an element without an `id`, is not represented.
- Types: JSON keys whose value is `null`, message objects missing `type` or `userId`, and extra keys in payloads are not represented.
- Canvas.Trim: strings are sequences of code points. UTF-16 surrogate pairs and the code-unit lengths that `slice(0, 6)` and `text.length` measure are not modelled.
- Socket.Socket.SendMessage: `isConnected` is kept as a field, but nothing in the code ever sets it to false.

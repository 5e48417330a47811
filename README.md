# Constraint-layout codec and model items of the optimization interface

This project models the save and load controls of the optimization
interface's `Controller`. `saveFile` writes the constraint model (point,
ellipse, polygon and plane constraints, the waypoints, the drone and the
flown path) to a data stream as count-prefixed blocks. `loadFile` replaces the
model with a fresh one and rebuilds it from such a stream. The project also
models two per-entity data holders, `PlaneModelItem` and `PointModelItem`.

Layout of the project:

- `tokens.dfy` (module `Tokens`): points, `quint16`/`quint32`, and the
  stream tokens (`BoolTok`, `PointTok`, `DoubleTok`, `U16Tok`, `U32Tok`).
  One token stands for one `<<` of the data stream.
- `streams.dfy` (module `Streams`): the data stream. `OutStream` appends
  tokens. `InStream` is a fixed token sequence read through a cursor. The
  `Take*` functions give what one `>>` yields and what it leaves unread.
- `layout.dfy` (module `Layout`): the model snapshot `LayoutModel`, one value
  record per entity, and the fresh model.
- `codec_spec.dfy` (module `CodecSpec`): the file format as functions. It
  holds the encoders (`*Tokens`, `*Block`, `SaveTokens`), the decoders
  (`Decode*`, `LoadAsWritten`, `Load`) and the lemmas relating them.
- `controller.dfy` (module `Codec`): class `Controller`. It holds the
  `write*` and `read*` members, the block loops of `saveFile` and
  `loadFile`, and the model updates they call. Each method is proved
  against the functions of `CodecSpec`.
- `model_items.dfy` (module `ModelItems`): the classes `PlaneModelItem` and
  `PointModelItem`.

The reads follow the data stream's behaviour on a failed read, at token
level. A read past the end yields zero (`false`, the origin, `0.0`, `0`) and
consumes nothing. A token of another kind than the one requested also yields
zero, and it is consumed. The controller never checks the stream's status,
so neither does the model. Loading therefore never fails: past the end of
a short file, and wherever a token of the wrong kind stands, the values read
are zeros. A count token of the right kind but a wrong value makes the loader
read that many items, each from whatever tokens follow. `loadFile` discards
the old model (`controller.cpp`:791-793) before its first read and never
reports a corrupt file, so the previous model is lost either way.

## Model

| member | source | states |
|---|---|---|
| `Codec.Controller.constructor` | Optimization_Interface/controller.cpp:32-34 | A new controller owns a fresh, empty constraint model. |
| `Codec.Controller.WritePoint` | Optimization_Interface/controller.cpp:508-513 | Appends exactly direction, position, radius and port, in that order, to what the stream already holds. |
| `Codec.Controller.WriteEllipse` | Optimization_Interface/controller.cpp:515-520 | Appends exactly direction, position, radius and port, in that order. |
| `Codec.Controller.WritePolygon` | Optimization_Interface/controller.cpp:522-529 | Appends the direction, then a `quint32` vertex count equal to the number of vertices (truncated to 32 bits), then every vertex in order, then the port. |
| `Codec.Controller.WritePlane` | Optimization_Interface/controller.cpp:531-536 | Appends direction, p1, p2 and port, in that order. |
| `Codec.Controller.WriteWaypoints` | Optimization_Interface/controller.cpp:538-545 | Appends a `quint32` count equal to the number of waypoints, the waypoints in order, then the port. |
| `Codec.Controller.WritePath` | Optimization_Interface/controller.cpp:547-554 | Appends a `quint32` count equal to the number of path points, the points in order, then the port. |
| `Codec.Controller.WriteDrone` | Optimization_Interface/controller.cpp:556-559 | Appends the drone position, then its port. |
| `Codec.Controller.WritePointBlock` | Optimization_Interface/controller.cpp:581-586 | Appends the point count, then every point constraint in model order. |
| `Codec.Controller.WriteEllipseBlock` | Optimization_Interface/controller.cpp:588-593 | Appends the ellipse count, then every ellipse in model order. |
| `Codec.Controller.WritePolygonBlock` | Optimization_Interface/controller.cpp:595-600 | Appends the polygon count, then every polygon in model order. |
| `Codec.Controller.WritePlaneBlock` | Optimization_Interface/controller.cpp:602-607 | Appends the plane count, then every plane in model order. |
| `Codec.Controller.SaveFile` | Optimization_Interface/controller.cpp:578-616 | The stream written holds exactly the blocks points, ellipses, polygons, planes, waypoints, drone and path, in that fixed order. |
| `CodecSpec.SaveBlockOffsets` | Optimization_Interface/controller.cpp:581-600 | A saved file starts with the point count. The ellipse count sits right after the four tokens of every point, and the polygon count right after the four tokens of every ellipse. |
| `CodecSpec.PointItemsLength` | Optimization_Interface/controller.cpp:508-513 | Each point constraint takes four tokens. |
| `CodecSpec.EllipsesLength` | Optimization_Interface/controller.cpp:515-520 | Each ellipse takes four tokens. |
| `Streams.CountRoundTrip` | Optimization_Interface/controller.cpp:582-583 | A container size cast to `quint32` reads back as that size whenever it is below 2^32. |
| `Codec.Controller.ReadPoint` | Optimization_Interface/controller.cpp:659-675 | Reads direction, position, radius and port in that order, builds the point constraint from them, and leaves the cursor just past them. |
| `Codec.Controller.ReadEllipse` | Optimization_Interface/controller.cpp:676-692 | Reads direction, position, radius and port in that order, builds the ellipse from them, and leaves the cursor just past them. |
| `Codec.Controller.ReadPolygon` | Optimization_Interface/controller.cpp:694-715 | Reads the direction and the vertex count, then exactly that many vertices in stream order, then the port. |
| `Codec.Controller.ReadPlane` | Optimization_Interface/controller.cpp:717-733 | Reads direction, p1, p2 and port. The first point read becomes p1 and the second p2. |
| `Codec.Controller.AddWaypoint` | Optimization_Interface/controller.cpp:192-195 | Appends one point to the waypoints and changes nothing else. |
| `Codec.Controller.AddPathPoint` | Optimization_Interface/controller.cpp:375-378 | Appends one point to the path and changes nothing else. |
| `Codec.Controller.UpdateDronePos` | Optimization_Interface/controller.cpp:385-389 | After setting x and then y, the drone's position is exactly the given one. Its port and the rest of the model are unchanged. |
| `Codec.Controller.ReadWaypoints` | Optimization_Interface/controller.cpp:735-746 | Appends the points read to the model's waypoints in stream order, sets the waypoint port to the port read, and changes nothing else. |
| `Codec.Controller.ReadPath` | Optimization_Interface/controller.cpp:748-759 | Appends the points read to the model's path in stream order, sets the path port to the port read, and changes nothing else. |
| `Codec.Controller.ReadDrone` | Optimization_Interface/controller.cpp:761-768 | Sets the drone's position and port to exactly the values read, and changes nothing else. |
| `Codec.Controller.LoadPoint` | Optimization_Interface/controller.cpp:626-634 | Adds one point constraint to the model. |
| `Codec.Controller.LoadEllipse` | Optimization_Interface/controller.cpp:635-641 | Adds one ellipse to the model. |
| `Codec.Controller.LoadPolygon` | Optimization_Interface/controller.cpp:643-649 | Adds one polygon to the model. |
| `Codec.Controller.LoadPlane` | Optimization_Interface/controller.cpp:651-657 | Adds one plane to the model. |
| `Codec.Controller.ReadEllipseBlock` | Optimization_Interface/controller.cpp:813-818 | Reads the ellipse count, then that many ellipses, adding them to the model in stream order. |
| `Codec.Controller.ReadPolygonBlock` | Optimization_Interface/controller.cpp:820-825 | Reads the polygon count, then that many polygons, adding them to the model in stream order. |
| `Codec.Controller.ReadPlaneBlock` | Optimization_Interface/controller.cpp:827-832 | Reads the plane count, then that many planes, adding them to the model in stream order. |
| `Codec.Controller.ReadConstraintBlocks` | Optimization_Interface/controller.cpp:813-841 | Reads the blocks ellipses, polygons, planes, waypoints, drone and path, in that order, into the model. |
| `Codec.Controller.LoadFile` | Optimization_Interface/controller.cpp:791-841 | Resets the model and then rebuilds it, so the loaded model depends on the stream alone and never on the previous model. No point block is read. |
| `Codec.Controller.ReadPointBlock` | Optimization_Interface/controller.cpp:581-586 | Corrected loader: reads the point block in the layout `saveFile` writes it, adding the points in stream order. |
| `Codec.Controller.LoadFileWithPoints` | Optimization_Interface/controller.cpp:791-841 | Corrected loader: a fresh model, then the point block, then the blocks `loadFile` reads. |
| `Codec.Controller.SaveThenLoad` | Optimization_Interface/controller.cpp:561-622 | Saving the model and loading the stream with the corrected loader leaves the model as it was. This needs every count to fit in 32 bits. |
| `CodecSpec.PointItemRoundTrip` | Optimization_Interface/controller.cpp:659-675 | The point reader inverts the point writer: all four fields come back, and the tokens after them are left unread. |
| `CodecSpec.EllipseRoundTrip` | Optimization_Interface/controller.cpp:676-692 | The ellipse reader inverts the ellipse writer: all four fields come back, and the tokens after them are left unread. |
| `CodecSpec.PlaneRoundTrip` | Optimization_Interface/controller.cpp:717-733 | The plane reader inverts the plane writer: p1 and p2 come back in their own places, never swapped, with direction and port. |
| `CodecSpec.DroneRoundTrip` | Optimization_Interface/controller.cpp:761-768 | The drone reader inverts the drone writer: position and port come back. |
| `CodecSpec.VerticesRoundTrip` | Optimization_Interface/controller.cpp:702-706 | Reading n points back from n written points gives the same points in the same order. |
| `CodecSpec.PolygonRoundTrip` | Optimization_Interface/controller.cpp:694-715 | The polygon reader inverts the polygon writer: vertex count, vertex order, direction and port come back, for fewer than 2^32 vertices. |
| `CodecSpec.PathRoundTrip` | Optimization_Interface/controller.cpp:735-759 | The waypoint and path readers invert their writers: the points in order and the port come back. |
| `CodecSpec.PointItemsRoundTrip` | Optimization_Interface/controller.cpp:584-586 | A run of written point constraints reads back element by element, in order. |
| `CodecSpec.EllipsesRoundTrip` | Optimization_Interface/controller.cpp:816-818 | A run of written ellipses reads back element by element, in order. |
| `CodecSpec.PolygonsRoundTrip` | Optimization_Interface/controller.cpp:823-825 | A run of written polygons reads back element by element, in order. |
| `CodecSpec.PlanesRoundTrip` | Optimization_Interface/controller.cpp:830-832 | A run of written planes reads back element by element, in order. |
| `CodecSpec.PointBlockRoundTrip` | Optimization_Interface/controller.cpp:581-586 | A point block reads back as the same point constraints. |
| `CodecSpec.EllipseBlockRoundTrip` | Optimization_Interface/controller.cpp:813-818 | An ellipse block written by `saveFile` reads back as the same ellipses. |
| `CodecSpec.PolygonBlockRoundTrip` | Optimization_Interface/controller.cpp:820-825 | A polygon block written by `saveFile` reads back as the same polygons. |
| `CodecSpec.PlaneBlockRoundTrip` | Optimization_Interface/controller.cpp:827-832 | A plane block written by `saveFile` reads back as the same planes. |
| `CodecSpec.ConstraintBlockSteps` | Optimization_Interface/controller.cpp:813-841 | Block by block, in `loadFile`'s order, each read gives back what `saveFile` wrote in that place and leaves exactly the blocks after it; nothing is left after the path. |
| `CodecSpec.ConstraintBlocksRoundTrip` | Optimization_Interface/controller.cpp:813-841 | Everything `saveFile` writes after the point block, read by `loadFile`'s block sequence, gives back the same ellipses, polygons, planes, waypoints, drone and path, and consumes all of it. |
| `CodecSpec.SaveLoadRoundTrip` | Optimization_Interface/controller.cpp:581-616 | Corrected loader: load after save reproduces the model exactly, with the same counts, field values and order, and consumes the whole file. |
| `CodecSpec.PointItemsAreEllipses` | Optimization_Interface/controller.cpp:508-520 | A point constraint and an ellipse with the same fields are written as the same tokens. |
| `CodecSpec.SavedPointsReloadAsEllipses` | Optimization_Interface/controller.cpp:813-818 | When `loadFile` reads a saved file, it comes back with no point constraints. Each saved point comes back as an ellipse with that point's fields. |
| `CodecSpec.LoadAsWrittenHasNoPoints` | Optimization_Interface/controller.cpp:791-841 | Whatever the stream holds, `loadFile` comes back with no point constraint. |
| `CodecSpec.LoadAsWrittenReadsBlocksLate` | Optimization_Interface/controller.cpp:813-832 | For a saved model with no point constraints, `loadFile` comes back with no ellipse. The saved ellipse block is read as the polygon block, and the saved polygon block as the plane block. |
| `CodecSpec.ZeroCountReadsBlocksLate` | Optimization_Interface/controller.cpp:813-832 | A stream that starts with a zero count loads with no ellipse. The next block is read as the polygons, and the one after it as the planes. |
| `CodecSpec.PointBlockReadAsEllipseBlock` | Optimization_Interface/controller.cpp:813-818 | In a saved file, `loadFile`'s ellipse read takes the point block: every point comes back as an ellipse with the same fields, and reading stops right where the saved ellipse block begins. |
| `CodecSpec.LoadAsWrittenIsNotInverse` | Optimization_Interface/controller.cpp:770-847 | With at least one point constraint or one ellipse, `loadFile` does not reproduce what `saveFile` wrote. |
| `CodecSpec.LoadAsWrittenMisreadsPoint` | Optimization_Interface/controller.cpp:813-841 | Concrete case: one point and a drone at (3,4), saved and then loaded. The result has the point as an ellipse, the drone lost, and one token left unread. |
| `ModelItems.PlaneModelItem.constructor` | Optimization_Interface/include/models/plane_model_item.h:20-21 | A new plane has the given p1 and p2, direction false and port 0. |
| `ModelItems.PlaneModelItem.GetP1` | Optimization_Interface/include/models/plane_model_item.h:26-29 | Returns p1 and modifies no field. |
| `ModelItems.PlaneModelItem.SetP1` | Optimization_Interface/include/models/plane_model_item.h:31-35 | Afterwards p1 is the given point. p2, direction and port are unchanged. |
| `ModelItems.PlaneModelItem.GetP2` | Optimization_Interface/include/models/plane_model_item.h:37-40 | Returns p2 and modifies no field. |
| `ModelItems.PlaneModelItem.SetP2` | Optimization_Interface/include/models/plane_model_item.h:42-46 | Afterwards p2 is the given point. p1, direction and port are unchanged. |
| `ModelItems.PlaneModelItem.GetDirection` | Optimization_Interface/include/models/plane_model_item.h:48-51 | Returns the direction flag and modifies no field. |
| `ModelItems.PlaneModelItem.FlipDirection` | Optimization_Interface/include/models/plane_model_item.h:53-56 | Negates the direction flag. p1, p2 and port are unchanged. |
| `ModelItems.FlipDirectionTwice` | Optimization_Interface/include/models/plane_model_item.h:53-56 | Flipping twice restores the direction flag and leaves every other field unchanged. |
| `ModelItems.PointModelItem.constructor` | Optimization_Interface/include/models/point_model_item.h:20-23 | A new point item has exactly the given position and port 0. |
| `ModelItems.PointModelItem.GetPos` | Optimization_Interface/include/models/point_model_item.h:30-34 | Returns the position and modifies no field. |
| `ModelItems.PointModelItem.SetPos` | Optimization_Interface/include/models/point_model_item.h:36-40 | Afterwards the position is the given one, and the port is unchanged. |
| `ModelItems.SetPosTwice` | Optimization_Interface/include/models/point_model_item.h:36-40 | Setting the same position twice ends in the same state as setting it once. |

## Left out

- Loading reads past the end, or reads a token of the wrong kind, as zero. The stream's byte encoding and version (`setVersion`) are not modelled. In a real file, a read of the wrong width takes bytes that belong to the next value. The token model reads such a value as zero instead. So the values `LoadAsWrittenMisreadsPoint` gives after the ellipse block hold for the token model only. The lost points, and the points coming back as ellipses, hold either way.
- The data stream's status flag is not modelled, because the controller never checks it.
- The file dialogs, the cannot-open message boxes and the early returns they cause are left out. Both `saveFile` and `loadFile` return before touching the stream or the model when no file is chosen or the file cannot be opened. The model takes an already-opened stream.
- Canvas work is left out: adding and removing graphics items, bringing items to the front, expanding the scene, and rebuilding the waypoint, path and drone graphics in `loadFile`. The same goes for `previousPoint_`.
- The controller's `ConstraintModel` keeps ellipses, polygons and planes in `QSet`s, and a `QSet` iterates in hash order. The model keeps every collection as a sequence in iteration order. The round-trip lemmas therefore state the same order, which the source does not guarantee for those three collections.
- The bodies of `ConstraintModel::addWaypoint`, `addPathPoint`, `addPoint`, `addEllipse`, `addPolygon` and `addPlane` are not part of this model. `AddWaypoint`, `AddPathPoint`, `LoadPoint`, `LoadEllipse`, `LoadPolygon` and `LoadPlane` assume each one appends its argument at the end of its collection and touches nothing else. `constraint_model.h` does not declare `addPathPoint` at all; it declares `setPathPoints` (line 50), another mismatch between the revisions of the files.
- The `ConstraintModel` constructor is not part of this model. `Fresh` assumes a new model has no constraints, no waypoints and no path, a drone at the origin, and port 0 everywhere.
- `data_model.h`, which declares `port_`, is not part of this model. Ports are taken to be `quint16`, so the `(quint16)` casts change nothing.
- Doubles are modelled as reals. The codec only copies them, so NaN and rounding play no part.
- The point record follows the four fields `controller.cpp` reads and writes. `constraint_model.h` declares no point collection, so the model adds one, kept as a sequence. `PointModelItem` in `point_model_item.h` has only a position and a port, and is modelled separately.
- `PlaneModelItem` takes its points by value, while `readPlane` passes pointers and sets `direction_` and `port_` directly. The codec works on value records either way.
- Per-item mutexes are left out, because access is treated as sequential.
- Left out as outside the codec: `compute()` and the solver it calls, `execute`, `setPorts`, the network servers and sockets, the compute thread, the remove and flip mouse controls, and the rendering and UI files.
- `Codec.Controller.SaveThenLoad`, `CodecSpec.SaveLoadRoundTrip` and the block and polygon round-trip lemmas require every count to be below 2^32 (`Representable`). The writers model the `(quint32)` truncation, and `QVector` sizes are `int`, so the bound always holds in the running program.

## Findings

| source | as written | input that shows it | evidently intended | confidence | as-written member | corrected member |
|---|---|---|---|---|---|---|
| Optimization_Interface/controller.cpp:813-818 | `loadFile` starts by reading the ellipse count. It never reads the point block that `saveFile` writes first (lines 581-586). Every later block is read one block too early. | A model with one point constraint (direction true, position (1,2), radius 5, port 7), a drone at (3,4) with port 9, and nothing else. The reload has no point, one ellipse with the point's fields, and the drone lost. | `loadFile` reads the point block first, so loading a saved file restores the model. | high; not executed | `CodecSpec.LoadAsWrittenMisreadsPoint` | `CodecSpec.SaveLoadRoundTrip` |

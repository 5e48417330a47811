/**
 * The controller's save and load controls: the per-entity `write*` and
 * `read*` members and the block sequences of `saveFile` and `loadFile`,
 * each proved against the token-level format of module CodecSpec.
 */
module Codec {
  import opened Tokens
  import opened Streams
  import opened Layout
  import opened CodecSpec

  class Controller {
    /** The constraint model the controller owns. */
    var model: LayoutModel

    constructor ()
      ensures model == Fresh()
    {
      model := Fresh();
    }

    // ------------------------------------------------------------ save side

    method WritePoint(p: PointItem, out: OutStream)
      modifies out
      ensures out.tokens == old(out.tokens) + PointItemTokens(p)
    {
      out.Write(BoolTok(p.direction));
      out.Write(PointTok(p.pos));
      out.Write(DoubleTok(p.radius));
      out.Write(U16Tok(p.port));
    }

    method WriteEllipse(e: EllipseItem, out: OutStream)
      modifies out
      ensures out.tokens == old(out.tokens) + EllipseTokens(e)
    {
      out.Write(BoolTok(e.direction));
      out.Write(PointTok(e.pos));
      out.Write(DoubleTok(e.radius));
      out.Write(U16Tok(e.port));
    }

    method WritePolygon(g: PolygonItem, out: OutStream)
      modifies out
      ensures out.tokens == old(out.tokens) + PolygonTokens(g)
    {
      out.Write(BoolTok(g.direction));
      out.Write(CountToken(|g.vertices|));
      ghost var before := out.tokens;
      for i := 0 to |g.vertices|
        invariant out.tokens == before + VerticesTokens(g.vertices[..i])
      {
        out.Write(PointTok(g.vertices[i]));
        assert g.vertices[..i + 1][..i] == g.vertices[..i];
      }
      assert g.vertices[..|g.vertices|] == g.vertices;
      out.Write(U16Tok(g.port));
    }

    method WritePlane(q: PlaneItem, out: OutStream)
      modifies out
      ensures out.tokens == old(out.tokens) + PlaneTokens(q)
    {
      out.Write(BoolTok(q.direction));
      out.Write(PointTok(q.p1));
      out.Write(PointTok(q.p2));
      out.Write(U16Tok(q.port));
    }

    /** The count, the points in order, the port. */
    method WriteWaypoints(w: PathItem, out: OutStream)
      modifies out
      ensures out.tokens == old(out.tokens) + PathTokens(w)
    {
      out.Write(CountToken(|w.points|));
      ghost var before := out.tokens;
      for i := 0 to |w.points|
        invariant out.tokens == before + VerticesTokens(w.points[..i])
      {
        out.Write(PointTok(w.points[i]));
        assert w.points[..i + 1][..i] == w.points[..i];
      }
      assert w.points[..|w.points|] == w.points;
      out.Write(U16Tok(w.port));
    }

    /** Same layout as the waypoint block. */
    method WritePath(w: PathItem, out: OutStream)
      modifies out
      ensures out.tokens == old(out.tokens) + PathTokens(w)
    {
      out.Write(CountToken(|w.points|));
      ghost var before := out.tokens;
      for i := 0 to |w.points|
        invariant out.tokens == before + VerticesTokens(w.points[..i])
      {
        out.Write(PointTok(w.points[i]));
        assert w.points[..i + 1][..i] == w.points[..i];
      }
      assert w.points[..|w.points|] == w.points;
      out.Write(U16Tok(w.port));
    }

    method WriteDrone(d: DroneItem, out: OutStream)
      modifies out
      ensures out.tokens == old(out.tokens) + DroneTokens(d)
    {
      out.Write(PointTok(d.pos));
      out.Write(U16Tok(d.port));
    }

    /** The points block of `saveFile`: the count, then each element in order. */
    method WritePointBlock(ps: seq<PointItem>, out: OutStream)
      modifies out
      ensures out.tokens == old(out.tokens) + PointBlock(ps)
    {
      out.Write(CountToken(|ps|));
      ghost var before := out.tokens;
      for i := 0 to |ps|
        invariant out.tokens == before + PointItemsTokens(ps[..i])
      {
        WritePoint(ps[i], out);
        assert ps[..i + 1][..i] == ps[..i];
      }
      assert ps[..|ps|] == ps;
    }

    /** The ellipses block of `saveFile`: the count, then each element in order. */
    method WriteEllipseBlock(es: seq<EllipseItem>, out: OutStream)
      modifies out
      ensures out.tokens == old(out.tokens) + EllipseBlock(es)
    {
      out.Write(CountToken(|es|));
      ghost var before := out.tokens;
      for i := 0 to |es|
        invariant out.tokens == before + EllipsesTokens(es[..i])
      {
        WriteEllipse(es[i], out);
        assert es[..i + 1][..i] == es[..i];
      }
      assert es[..|es|] == es;
    }

    /** The polygons block of `saveFile`: the count, then each element in order. */
    method WritePolygonBlock(gs: seq<PolygonItem>, out: OutStream)
      modifies out
      ensures out.tokens == old(out.tokens) + PolygonBlock(gs)
    {
      out.Write(CountToken(|gs|));
      ghost var before := out.tokens;
      for i := 0 to |gs|
        invariant out.tokens == before + PolygonsTokens(gs[..i])
      {
        WritePolygon(gs[i], out);
        assert gs[..i + 1][..i] == gs[..i];
      }
      assert gs[..|gs|] == gs;
    }

    /** The planes block of `saveFile`: the count, then each element in order. */
    method WritePlaneBlock(qs: seq<PlaneItem>, out: OutStream)
      modifies out
      ensures out.tokens == old(out.tokens) + PlaneBlock(qs)
    {
      out.Write(CountToken(|qs|));
      ghost var before := out.tokens;
      for i := 0 to |qs|
        invariant out.tokens == before + PlanesTokens(qs[..i])
      {
        WritePlane(qs[i], out);
        assert qs[..i + 1][..i] == qs[..i];
      }
      assert qs[..|qs|] == qs;
    }

    /**
     * Writes the whole model to a new stream: points, ellipses, polygons and
     * planes, each block prefixed by its element count, then the waypoints,
     * the drone and the path.
     */
    method SaveFile() returns (out: OutStream)
      ensures out.tokens == SaveTokens(model)
    {
      out := new OutStream();
      WritePointBlock(model.points, out);
      assert out.tokens == PointBlock(model.points);
      WriteEllipseBlock(model.ellipses, out);
      WritePolygonBlock(model.polygons, out);
      WritePlaneBlock(model.planes, out);
      WriteWaypoints(model.waypoints, out);
      WriteDrone(model.drone, out);
      WritePath(model.path, out);
      SaveTokensInWriteOrder(model);
    }

    // ------------------------------------------------------------ load side

    method ReadPoint(inp: InStream) returns (p: PointItem)
      requires inp.Valid()
      modifies inp`pos
      ensures inp.Valid() && (p, inp.Remaining()) == DecodePointItem(old(inp.Remaining()))
    {
      var direction := inp.ReadBool();
      var pos := inp.ReadPoint();
      var radius := inp.ReadDouble();
      var port := inp.ReadU16();
      p := PointItem(direction, pos, radius, port);
    }

    method ReadEllipse(inp: InStream) returns (e: EllipseItem)
      requires inp.Valid()
      modifies inp`pos
      ensures inp.Valid() && (e, inp.Remaining()) == DecodeEllipse(old(inp.Remaining()))
    {
      var direction := inp.ReadBool();
      var pos := inp.ReadPoint();
      var radius := inp.ReadDouble();
      var port := inp.ReadU16();
      e := EllipseItem(direction, pos, radius, port);
    }

    /** Reads the vertex count, then exactly that many vertices, then the port. */
    method ReadPolygon(inp: InStream) returns (g: PolygonItem)
      requires inp.Valid()
      modifies inp`pos
      ensures inp.Valid() && (g, inp.Remaining()) == DecodePolygon(old(inp.Remaining()))
    {
      var direction := inp.ReadBool();
      var size := inp.ReadU32();
      ghost var body := inp.Remaining();
      var points: seq<Point> := [];
      for i := 0 to size as int
        invariant inp.Valid()
        invariant (points, inp.Remaining()) == DecodeVertices(body, i)
      {
        var point := inp.ReadPoint();
        points := points + [point];
      }
      var port := inp.ReadU16();
      g := PolygonItem(direction, points, port);
    }

    method ReadPlane(inp: InStream) returns (q: PlaneItem)
      requires inp.Valid()
      modifies inp`pos
      ensures inp.Valid() && (q, inp.Remaining()) == DecodePlane(old(inp.Remaining()))
    {
      var direction := inp.ReadBool();
      var p1 := inp.ReadPoint();
      var p2 := inp.ReadPoint();
      var port := inp.ReadU16();
      q := PlaneItem(direction, p1, p2, port);
    }

    method AddWaypoint(point: Point)
      modifies this
      ensures model == old(model).(waypoints := old(model).waypoints.(points := old(model).waypoints.points + [point]))
    {
      model := model.(waypoints := model.waypoints.(points := model.waypoints.points + [point]));
    }

    method AddPathPoint(point: Point)
      modifies this
      ensures model == old(model).(path := old(model).path.(points := old(model).path.points + [point]))
    {
      model := model.(path := model.path.(points := model.path.points + [point]));
    }

    /** Sets the drone's x, then its y. */
    method UpdateDronePos(pos: Point)
      modifies this
      ensures model == old(model).(drone := old(model).drone.(pos := pos))
    {
      model := model.(drone := model.drone.(pos := model.drone.pos.(x := pos.x)));
      model := model.(drone := model.drone.(pos := model.drone.pos.(y := pos.y)));
    }

    /** Appends the waypoints read, in stream order, and sets the waypoint port. */
    method ReadWaypoints(inp: InStream)
      requires inp.Valid()
      modifies this, inp`pos
      ensures inp.Valid()
      ensures model == old(model).(waypoints := PathItem(
                old(model).waypoints.points + DecodePath(old(inp.Remaining())).0.points,
                DecodePath(old(inp.Remaining())).0.port))
      ensures inp.Remaining() == DecodePath(old(inp.Remaining())).1
    {
      ghost var m0 := model;
      var n := inp.ReadU32();
      ghost var body := inp.Remaining();
      for i := 0 to n as int
        invariant inp.Valid()
        invariant model == m0.(waypoints := m0.waypoints.(points := m0.waypoints.points + DecodeVertices(body, i).0))
        invariant inp.Remaining() == DecodeVertices(body, i).1
      {
        var point := inp.ReadPoint();
        AddWaypoint(point);
      }
      var port := inp.ReadU16();
      model := model.(waypoints := model.waypoints.(port := port));
    }

    /** Appends the path points read, in stream order, and sets the path port. */
    method ReadPath(inp: InStream)
      requires inp.Valid()
      modifies this, inp`pos
      ensures inp.Valid()
      ensures model == old(model).(path := PathItem(
                old(model).path.points + DecodePath(old(inp.Remaining())).0.points,
                DecodePath(old(inp.Remaining())).0.port))
      ensures inp.Remaining() == DecodePath(old(inp.Remaining())).1
    {
      ghost var m0 := model;
      var n := inp.ReadU32();
      ghost var body := inp.Remaining();
      for i := 0 to n as int
        invariant inp.Valid()
        invariant model == m0.(path := m0.path.(points := m0.path.points + DecodeVertices(body, i).0))
        invariant inp.Remaining() == DecodeVertices(body, i).1
      {
        var point := inp.ReadPoint();
        AddPathPoint(point);
      }
      var port := inp.ReadU16();
      model := model.(path := model.path.(port := port));
    }

    /** Sets the drone's position and port to the ones read. */
    method ReadDrone(inp: InStream)
      requires inp.Valid()
      modifies this, inp`pos
      ensures inp.Valid()
      ensures model == old(model).(drone := DecodeDrone(old(inp.Remaining())).0)
      ensures inp.Remaining() == DecodeDrone(old(inp.Remaining())).1
    {
      var point := inp.ReadPoint();
      var port := inp.ReadU16();
      UpdateDronePos(point);
      model := model.(drone := model.drone.(port := port));
    }

    method LoadPoint(p: PointItem)
      modifies this
      ensures model == old(model).(points := old(model).points + [p])
    {
      model := model.(points := model.points + [p]);
    }

    method LoadEllipse(e: EllipseItem)
      modifies this
      ensures model == old(model).(ellipses := old(model).ellipses + [e])
    {
      model := model.(ellipses := model.ellipses + [e]);
    }

    method LoadPolygon(g: PolygonItem)
      modifies this
      ensures model == old(model).(polygons := old(model).polygons + [g])
    {
      model := model.(polygons := model.polygons + [g]);
    }

    method LoadPlane(q: PlaneItem)
      modifies this
      ensures model == old(model).(planes := old(model).planes + [q])
    {
      model := model.(planes := model.planes + [q]);
    }

    /** The point block: a count, then that many points added to the model. */
    method ReadPointBlock(inp: InStream)
      requires inp.Valid()
      modifies this, inp`pos
      ensures inp.Valid()
      ensures model == old(model).(points := old(model).points + DecodePointBlock(old(inp.Remaining())).0)
      ensures inp.Remaining() == DecodePointBlock(old(inp.Remaining())).1
    {
      ghost var m0 := model;
      var n := inp.ReadU32();
      ghost var body := inp.Remaining();
      ghost var ps := [];
      for i := 0 to n as int
        invariant inp.Valid()
        invariant (ps, inp.Remaining()) == DecodePointItems(body, i)
        invariant model.points == m0.points + ps
        invariant model == m0.(points := model.points)
      {
        var p := ReadPoint(inp);
        LoadPoint(p);
        ps := ps + [p];
      }
    }

    /** The ellipse block: a count, then that many ellipses added to the model. */
    method ReadEllipseBlock(inp: InStream)
      requires inp.Valid()
      modifies this, inp`pos
      ensures inp.Valid()
      ensures model == old(model).(ellipses := old(model).ellipses + DecodeEllipseBlock(old(inp.Remaining())).0)
      ensures inp.Remaining() == DecodeEllipseBlock(old(inp.Remaining())).1
    {
      ghost var m0 := model;
      var n := inp.ReadU32();
      ghost var body := inp.Remaining();
      ghost var es := [];
      for i := 0 to n as int
        invariant inp.Valid()
        invariant (es, inp.Remaining()) == DecodeEllipses(body, i)
        invariant model.ellipses == m0.ellipses + es
        invariant model == m0.(ellipses := model.ellipses)
      {
        var e := ReadEllipse(inp);
        LoadEllipse(e);
        es := es + [e];
      }
    }

    /** The polygon block: a count, then that many polygons added to the model. */
    method ReadPolygonBlock(inp: InStream)
      requires inp.Valid()
      modifies this, inp`pos
      ensures inp.Valid()
      ensures model == old(model).(polygons := old(model).polygons + DecodePolygonBlock(old(inp.Remaining())).0)
      ensures inp.Remaining() == DecodePolygonBlock(old(inp.Remaining())).1
    {
      ghost var m0 := model;
      var n := inp.ReadU32();
      ghost var body := inp.Remaining();
      ghost var gs := [];
      for i := 0 to n as int
        invariant inp.Valid()
        invariant (gs, inp.Remaining()) == DecodePolygons(body, i)
        invariant model.polygons == m0.polygons + gs
        invariant model == m0.(polygons := model.polygons)
      {
        var g := ReadPolygon(inp);
        LoadPolygon(g);
        gs := gs + [g];
      }
    }

    /** The plane block: a count, then that many planes added to the model. */
    method ReadPlaneBlock(inp: InStream)
      requires inp.Valid()
      modifies this, inp`pos
      ensures inp.Valid()
      ensures model == old(model).(planes := old(model).planes + DecodePlaneBlock(old(inp.Remaining())).0)
      ensures inp.Remaining() == DecodePlaneBlock(old(inp.Remaining())).1
    {
      ghost var m0 := model;
      var n := inp.ReadU32();
      ghost var body := inp.Remaining();
      ghost var qs := [];
      for i := 0 to n as int
        invariant inp.Valid()
        invariant (qs, inp.Remaining()) == DecodePlanes(body, i)
        invariant model.planes == m0.planes + qs
        invariant model == m0.(planes := model.planes)
      {
        var q := ReadPlane(inp);
        LoadPlane(q);
        qs := qs + [q];
      }
    }

    /** `loadFile`'s block sequence: ellipses, polygons, planes, waypoints, drone, path. */
    method ReadConstraintBlocks(inp: InStream)
      requires inp.Valid()
      modifies this, inp`pos
      ensures inp.Valid()
      ensures (model, inp.Remaining()) == DecodeConstraintBlocks(old(model), old(inp.Remaining()))
    {
      ghost var m0, ts := model, inp.Remaining();
      ReadEllipseBlock(inp);
      ghost var t1 := inp.Remaining();
      ReadPolygonBlock(inp);
      ghost var t2 := inp.Remaining();
      ReadPlaneBlock(inp);
      ghost var t3 := inp.Remaining();
      ReadWaypoints(inp);
      ghost var t4 := inp.Remaining();
      ReadDrone(inp);
      ghost var t5 := inp.Remaining();
      ReadPath(inp);
      DecodeConstraintBlocksOf(m0, ts, DecodeEllipseBlock(ts).0, DecodePolygonBlock(t1).0, DecodePlaneBlock(t2).0,
        DecodePath(t3).0, DecodeDrone(t4).0, DecodePath(t5).0, t1, t2, t3, t4, t5, inp.Remaining());
    }

    /**
     * Replaces the model with a fresh one and reads the blocks into it, as
     * `loadFile` does: the result depends on the stream alone, and the point
     * block is not read.
     */
    method LoadFile(inp: InStream)
      requires inp.Valid()
      modifies this, inp`pos
      ensures inp.Valid()
      ensures (model, inp.Remaining()) == LoadAsWritten(old(inp.Remaining()))
    {
      model := Fresh();
      ReadConstraintBlocks(inp);
    }

    /** `loadFile` with the point block read first, as `saveFile` writes it. */
    method LoadFileWithPoints(inp: InStream)
      requires inp.Valid()
      modifies this, inp`pos
      ensures inp.Valid()
      ensures (model, inp.Remaining()) == Load(old(inp.Remaining()))
    {
      model := Fresh();
      ReadPointBlock(inp);
      assert model == Fresh().(points := DecodePointBlock(old(inp.Remaining())).0);
      ReadConstraintBlocks(inp);
    }

    /** Saving and then loading with the point block read first restores the model. */
    method SaveThenLoad()
      requires Representable(model)
      modifies this
      ensures model == old(model)
    {
      var out := SaveFile();
      var inp := new InStream(out.tokens);
      LoadFileWithPoints(inp);
      SaveLoadRoundTrip(old(model));
    }
  }
}

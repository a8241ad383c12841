/** The explorer client's receiving side (Simulator/src/ExplorerClient.java): it splits each line
    from the server into a tag and comma-separated fields and updates its local picture of the
    world. Number parsing (`Double.parseDouble`) is the parameter `parse`; `None` stands for the
    `NumberFormatException` it throws on text that is not a number. */
module SimClient {
  import opened Kinematics
  import opened JavaText
  import SimServer

  /** What one server line does to the client. */
  datatype Update =
    | Ignore
    | Controlled(id: string)
    | PutExplorer(id: string, x: real, y: real)
    | PutParticle(id: string, px: int, py: int, vx: real, vy: real)
    | Malformed   // a field that should be a number is not: the parse throws

  /** The meaning of one line: the parts around `": "` must be exactly two; the tag
      `CONTROLLED_EXPLORER` names the client's own explorer; `EXPLORER` with three fields places an
      explorer; any other line with five fields, whatever its tag, places a particle whose
      position is cut to whole pixels. */
  function Decode(message: string, parse: string -> Option<real>): (u: Update)
    ensures |Split(message, ": ")| != 2 ==> u == Ignore
    ensures u.Controlled? ==> u.id == Split(message, ": ")[1]
    ensures u.PutExplorer? || u.PutParticle? ==>
      |Split(message, ": ")| == 2 && Split(message, ": ")[0] != "CONTROLLED_EXPLORER"
    ensures var parts := Split(message, ": ");
      |parts| == 2 && parts[0] == "CONTROLLED_EXPLORER" ==> u == Controlled(parts[1])
    // Any other two-part line: its body is split into fields, and only an `EXPLORER` line with
    // three fields or a line with five fields is used.
    ensures var parts := Split(message, ": ");
      |parts| == 2 && parts[0] != "CONTROLLED_EXPLORER" ==>
        var data := Split(parts[1], ", ");
        var explorer := |data| == 3 && parts[0] == "EXPLORER";
        (!explorer && |data| != 5 ==> u == Ignore) &&
        (u.Malformed? <==> (explorer || |data| == 5) && !Parses(parse, data[1..])) &&
        (u.PutExplorer? <==> explorer && Parses(parse, data[1..])) &&
        (u.PutParticle? <==> !explorer && |data| == 5 && Parses(parse, data[1..]))
    ensures u.PutExplorer? ==>
      var data := Split(Split(message, ": ")[1], ", ");
      |data| == 3 && u.id == data[0] && parse(data[1]) == Some(u.x) && parse(data[2]) == Some(u.y)
    ensures u.PutParticle? ==>
      var data := Split(Split(message, ": ")[1], ", ");
      |data| == 5 && u.id == data[0] &&
      parse(data[1]).Some? && u.px == Trunc(parse(data[1]).value) &&
      parse(data[2]).Some? && u.py == Trunc(parse(data[2]).value) &&
      parse(data[3]) == Some(u.vx) && parse(data[4]) == Some(u.vy)
  {
    var parts := Split(message, ": ");
    if |parts| != 2 then Ignore
    else if parts[0] == "CONTROLLED_EXPLORER" then Controlled(parts[1])
    else
      var data := Split(parts[1], ", ");
      if |data| == 3 && parts[0] == "EXPLORER" then
        var x := parse(data[1]);
        var y := parse(data[2]);
        if x.None? || y.None? then Malformed else PutExplorer(data[0], x.value, y.value)
      else if |data| == 5 then
        var x := parse(data[1]);
        var y := parse(data[2]);
        var vx := parse(data[3]);
        var vy := parse(data[4]);
        if x.None? || y.None? || vx.None? || vy.None? then Malformed
        else PutParticle(data[0], Trunc(x.value), Trunc(y.value), vx.value, vy.value)
      else Ignore
  }

  /** Every one of `fields` reads as a number. */
  predicate Parses(parse: string -> Option<real>, fields: seq<string>)
  {
    forall i :: 0 <= i < |fields| ==> parse(fields[i]).Some?
  }

  /** The outcome of `explorers.get(id)` on a `ConcurrentHashMap`, which refuses a null key. */
  datatype Lookup = NullPointer | NotFound | Found(explorer: Motion)

  /** The client's picture of the world: explorers and particles by id, and its own explorer's id.
      Entries are stored as their state at the time of the last message. */
  class ExplorerClient {
    var explorers: map<string, Motion>
    var particles: map<string, Motion>
    var controlledExplorerId: Option<string>

    constructor ()
      ensures explorers == map[] && particles == map[] && controlledExplorerId == None
    {
      explorers := map[];
      particles := map[];
      controlledExplorerId := None;
    }

    /** Applies one server line. `ok` is false when a number field did not parse; the source's
        exception then ends the receiving loop, and nothing was stored. */
    method HandleServerMessage(message: string, parse: string -> Option<real>) returns (ok: bool)
      modifies this
      ensures var u := Decode(message, parse);
        ok == !u.Malformed? &&
        controlledExplorerId == (if u.Controlled? then Some(u.id) else old(controlledExplorerId)) &&
        explorers == (if u.PutExplorer? then old(explorers)[u.id := Motion(u.x, u.y, 0.0, 0.0)] else old(explorers)) &&
        particles == (if u.PutParticle? then old(particles)[u.id := Motion(u.px as real, u.py as real, u.vx, u.vy)]
                      else old(particles))
    {
      ok := true;
      var parts := Split(message, ": ");
      if |parts| == 2 {
        if parts[0] == "CONTROLLED_EXPLORER" {
          controlledExplorerId := Some(parts[1]);
        } else {
          var data := Split(parts[1], ", ");
          if |data| == 3 && parts[0] == "EXPLORER" {
            var id := data[0];
            var x := parse(data[1]);
            if x.None? { return false; }
            var y := parse(data[2]);
            if y.None? { return false; }
            explorers := explorers[id := Motion(x.value, y.value, 0.0, 0.0)];
          } else if |data| == 5 {
            var id := data[0];
            var x := parse(data[1]);
            if x.None? { return false; }
            var y := parse(data[2]);
            if y.None? { return false; }
            var vx := parse(data[3]);
            if vx.None? { return false; }
            var vy := parse(data[4]);
            if vy.None? { return false; }
            particles := particles[id := Motion(Trunc(x.value) as real, Trunc(y.value) as real, vx.value, vy.value)];
          }
        }
      }
    }

    /** `getControlledExplorer` as written: it looks the id up even while it is still null, and
        the map then throws a `NullPointerException` instead of answering. */
    function GetControlledExplorer(): (r: Lookup)
      reads this
      ensures r.NullPointer? <==> controlledExplorerId.None?
      ensures r.Found? <==> controlledExplorerId.Some? && controlledExplorerId.value in explorers
      ensures r.Found? ==> r.explorer == explorers[controlledExplorerId.value]
    {
      match controlledExplorerId
      case None => NullPointer
      case Some(id) => if id in explorers then Found(explorers[id]) else NotFound
    }

    /** The explorer this client steers, once the server has named it and placed it; nothing
        before that, which is what the renderer's null test expects. */
    function ControlledExplorer(): (r: Option<Motion>)
      reads this
      ensures r.Some? <==> controlledExplorerId.Some? && controlledExplorerId.value in explorers
      ensures r.Some? ==> r.value == explorers[controlledExplorerId.value]
    {
      if controlledExplorerId.Some? && controlledExplorerId.value in explorers then
        Some(explorers[controlledExplorerId.value])
      else None
    }
  }

  /** A client that has just been built, before the server named its explorer: the lookup as
      written throws, where the renderer expects to be told there is no explorer yet. */
  method FreshClientLookup() returns (asWritten: Lookup, intended: Option<Motion>)
    ensures asWritten == NullPointer && intended == None
  {
    var client := new ExplorerClient();
    asWritten := client.GetControlledExplorer();
    intended := client.ControlledExplorer();
  }

  /** Once the server has named the explorer, the lookup as written and the intended one agree. */
  lemma LookupsAgreeOnceNamed(client: ExplorerClient)
    requires client.controlledExplorerId.Some?
    ensures client.GetControlledExplorer().Found? <==> client.ControlledExplorer().Some?
    ensures client.ControlledExplorer().Some? ==>
      client.GetControlledExplorer().explorer == client.ControlledExplorer().value
  {
  }

  /** A text that can sit in a record field: it contains neither separator. */
  predicate Field(s: string)
  {
    Free(s, ": ") && Free(s, ", ")
  }

  /** How the server writes a number agrees with how the client reads it back. */
  predicate Numeral(show: real -> string, parse: string -> Option<real>, v: real)
  {
    Field(show(v)) && show(v) != "" && parse(show(v)) == Some(v)
  }

  /** Fields free of `": "` joined with `", "` stay free of `": "`. */
  lemma {:induction false} JoinFieldsFree(fields: seq<string>)
    requires |fields| > 0 && forall i :: 0 <= i < |fields| ==> Free(fields[i], ": ")
    ensures Free(Join(fields, ", "), ": ")
  {
    if |fields| > 1 {
      JoinFieldsFree(fields[1..]);
      FreeOfFirst(", ", ": ");
      FreeConcat(fields[0], ", ", ": ");
      FreeConcat(fields[0] + ", ", Join(fields[1..], ", "), ": ");
    }
  }

  lemma JoinNonEmpty(fields: seq<string>, sep: string)
    requires |fields| > 0 && fields[|fields| - 1] != ""
    ensures Join(fields, sep) != ""
    decreases |fields|
  {
    if |fields| > 1 {
      JoinNonEmpty(fields[1..], sep);
    }
  }

  /** A tag and a non-empty body joined by `": "`, neither containing it, split back apart. */
  lemma SplitTag(tag: string, body: string)
    requires Free(tag, ": ") && Free(body, ": ") && body != ""
    ensures Split(tag + ": " + body, ": ") == [tag, body]
  {
    var ps := [tag, body];
    assert ps[0] == tag && ps[1] == body && |ps| == 2;
    assert Join(ps, ": ") == tag + ": " + body by {
      assert ps[1..] == [body];
    }
    SplitJoin(ps, ": ");
  }

  /** A line built as tag, `": "`, and fields joined by `", "` splits back into exactly those. */
  lemma SplitRecord(tag: string, fields: seq<string>)
    requires Free(tag, ": ") && |fields| > 0 && fields[|fields| - 1] != ""
    requires forall i :: 0 <= i < |fields| ==> Field(fields[i])
    ensures Split(tag + ": " + Join(fields, ", "), ": ") == [tag, Join(fields, ", ")]
    ensures Split(Join(fields, ", "), ", ") == fields
  {
    var body := Join(fields, ", ");
    JoinFieldsFree(fields);
    JoinNonEmpty(fields, ", ");
    SplitTag(tag, body);
    SplitJoin(fields, ", ");
  }

  /** Any line with five fields places a particle, whatever its tag (other than the one naming
      the client's explorer): the tag is not checked. */
  lemma FiveFieldsPlaceParticle(tag: string, id: string, m: Motion, show: real -> string, parse: string -> Option<real>)
    requires tag != "CONTROLLED_EXPLORER" && Free(tag, ": ") && Field(id)
    requires Numeral(show, parse, m.x) && Numeral(show, parse, m.y)
    requires Numeral(show, parse, m.vx) && Numeral(show, parse, m.vy)
    ensures Decode(tag + ": " + Join([id, show(m.x), show(m.y), show(m.vx), show(m.vy)], ", "), parse)
      == PutParticle(id, Trunc(m.x), Trunc(m.y), m.vx, m.vy)
  {
    SplitRecord(tag, [id, show(m.x), show(m.y), show(m.vx), show(m.vy)]);
  }

  /** A particle record the server sends is read back as the particle it describes, its position
      cut to whole pixels. */
  lemma ParticleRoundTrip(id: string, m: Motion, show: real -> string, parse: string -> Option<real>)
    requires Field(id)
    requires Numeral(show, parse, m.x) && Numeral(show, parse, m.y)
    requires Numeral(show, parse, m.vx) && Numeral(show, parse, m.vy)
    ensures Decode(SimServer.ParticleRecord(id, m, show), parse) == PutParticle(id, Trunc(m.x), Trunc(m.y), m.vx, m.vy)
  {
    SimServer.ParticleLayout(id, m, show);
    FreeOfFirst("PARTICLE", ": ");
    FiveFieldsPlaceParticle("PARTICLE", id, m, show, parse);
  }

  /** An explorer record the server sends is read back as that explorer's position. */
  lemma ExplorerRoundTrip(id: string, x: real, y: real, show: real -> string, parse: string -> Option<real>)
    requires Field(id) && Numeral(show, parse, x) && Numeral(show, parse, y)
    ensures Decode(SimServer.ExplorerRecord(id, x, y, show), parse) == PutExplorer(id, x, y)
  {
    SimServer.ExplorerLayout(id, x, y, show);
    FreeOfFirst("EXPLORER", ": ");
    SplitRecord("EXPLORER", [id, show(x), show(y)]);
  }

  /** The record naming a client's explorer is read back as that id, provided the id is not
      empty and contains no `": "`. */
  lemma ControlledRoundTrip(id: string, parse: string -> Option<real>)
    requires id != "" && Free(id, ": ")
    ensures Decode(SimServer.ControlledExplorerRecord(id), parse) == Controlled(id)
  {
    FreeOfFirst("CONTROLLED_EXPLORER", ": ");
    assert Join(["CONTROLLED_EXPLORER", id], ": ") == SimServer.ControlledExplorerRecord(id);
    SplitJoin(["CONTROLLED_EXPLORER", id], ": ");
  }

  /** With an empty id the same record splits into one part (the trailing empty part is dropped)
      and is ignored. */
  lemma ControlledEmptyIdIgnored(parse: string -> Option<real>)
    ensures Decode(SimServer.ControlledExplorerRecord(""), parse) == Ignore
  {
    FreeOfFirst("CONTROLLED_EXPLORER", ": ");
    assert Join(["CONTROLLED_EXPLORER", ""], ": ") == SimServer.ControlledExplorerRecord("");
    SplitDropsTrailingEmpty(["CONTROLLED_EXPLORER", ""], ": ");
  }
}

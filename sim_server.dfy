/** The simulator's network side (Simulator/src/Main.java): the one-line text records it sends,
    the broadcaster's change detection that sends a record only when it differs from the last one
    sent for the same id, and the per-client handler that turns key commands into explorer
    velocities. Number formatting (`Double.toString`) is the parameter `show`. */
module SimServer {
  import opened Kinematics
  import opened JavaText
  import SimBall
  import SimExplorer

  /** The record describing a particle. */
  function ParticleRecord(id: string, m: Motion, show: real -> string): string
  {
    "PARTICLE: " + id + ", " + show(m.x) + ", " + show(m.y) + ", " + show(m.vx) + ", " + show(m.vy)
  }

  /** The record describing an explorer: its position only. */
  function ExplorerRecord(id: string, x: real, y: real, show: real -> string): string
  {
    "EXPLORER: " + id + ", " + show(x) + ", " + show(y)
  }

  /** The record telling a new client which explorer it steers. */
  function ControlledExplorerRecord(id: string): string
  {
    "CONTROLLED_EXPLORER: " + id
  }

  /** Peeling the first piece off a join. */
  lemma JoinCons(p: string, ps: seq<string>, sep: string)
    requires |ps| > 0
    ensures Join([p] + ps, sep) == p + sep + Join(ps, sep)
  {
    assert ([p] + ps)[1..] == ps;
  }

  /** Each record is its tag, `": "`, and its fields joined by `", "`. */
  lemma ParticleLayout(id: string, m: Motion, show: real -> string)
    ensures ParticleRecord(id, m, show)
      == "PARTICLE" + ": " + Join([id, show(m.x), show(m.y), show(m.vx), show(m.vy)], ", ")
  {
    var s, x, y, vx, vy := ", ", show(m.x), show(m.y), show(m.vx), show(m.vy);
    var j4 := vx + s + vy;
    JoinCons(vx, [vy], s);
    assert [vx] + [vy] == [vx, vy];
    var j3 := y + s + j4;
    JoinCons(y, [vx, vy], s);
    assert [y] + [vx, vy] == [y, vx, vy];
    var j2 := x + s + j3;
    JoinCons(x, [y, vx, vy], s);
    assert [x] + [y, vx, vy] == [x, y, vx, vy];
    JoinCons(id, [x, y, vx, vy], s);
    assert [id] + [x, y, vx, vy] == [id, x, y, vx, vy];
    assert Join([id, x, y, vx, vy], s) == id + s + j2;
    assert "PARTICLE" + ": " == "PARTICLE: ";
  }

  lemma ExplorerLayout(id: string, x: real, y: real, show: real -> string)
    ensures ExplorerRecord(id, x, y, show) == "EXPLORER" + ": " + Join([id, show(x), show(y)], ", ")
  {
    var s, a, b := ", ", show(x), show(y);
    JoinCons(a, [b], s);
    assert [a] + [b] == [a, b];
    JoinCons(id, [a, b], s);
    assert [id] + [a, b] == [id, a, b];
    assert Join([id, a, b], s) == id + s + (a + s + b);
    assert "EXPLORER" + ": " == "EXPLORER: ";
  }

  lemma ControlledLayout(id: string)
    ensures ControlledExplorerRecord(id) == "CONTROLLED_EXPLORER" + ": " + Join([id], ", ")
  {
    assert "CONTROLLED_EXPLORER" + ": " == "CONTROLLED_EXPLORER: ";
  }

  /** The ids of a run of (id, record) pairs. */
  function Ids(entries: seq<(string, string)>): (ids: set<string>)
    ensures forall i :: 0 <= i < |entries| ==> entries[i].0 in ids
    ensures forall k :: k in ids ==> exists i :: 0 <= i < |entries| && entries[i].0 == k
  {
    set i | 0 <= i < |entries| :: entries[i].0
  }

  /** No id occurs twice. */
  predicate DistinctIds(entries: seq<(string, string)>)
  {
    forall i, j :: 0 <= i < j < |entries| ==> entries[i].0 != entries[j].0
  }

  /** What one broadcaster pass produces: the records sent and the new last-sent map. */
  datatype Delta = Delta(sent: seq<string>, last: map<string, string>)

  /** One pass of change detection over the (id, record) pairs in iteration order, starting from
      the last-sent map `last`: a record goes out when the map holds no record for its id or a
      different one, and is then remembered. */
  function Diff(last: map<string, string>, entries: seq<(string, string)>): (d: Delta)
    // the map gains exactly the ids seen and loses nothing
    ensures d.last.Keys == last.Keys + Ids(entries)
    // ids not seen keep their record
    ensures forall k :: k in last && k !in Ids(entries) ==> d.last[k] == last[k]
    // at most one record per pair
    ensures |d.sent| <= |entries|
  {
    if entries == [] then Delta([], last)
    else
      var prefix := entries[..|entries| - 1];
      var e := entries[|entries| - 1];
      IdsSnoc(prefix, e);
      assert entries == prefix + [e];
      Observe(Diff(last, prefix), e)
  }

  /** The broadcaster's step for one entity: send and remember its record unless the map already
      holds exactly that record for its id. */
  function Observe(d: Delta, e: (string, string)): Delta
  {
    if e.0 in d.last && d.last[e.0] == e.1 then d else Delta(d.sent + [e.1], d.last[e.0 := e.1])
  }

  lemma IdsSnoc(prefix: seq<(string, string)>, e: (string, string))
    ensures Ids(prefix + [e]) == Ids(prefix) + {e.0}
  {
    var s := prefix + [e];
    assert forall i :: 0 <= i < |prefix| ==> s[i] == prefix[i];
    assert s[|prefix|] == e;
  }

  /** A pass over one more pair is one more step. */
  lemma DiffPrefix(last: map<string, string>, entries: seq<(string, string)>, i: int)
    requires 0 <= i < |entries|
    ensures Diff(last, entries[..i + 1]) == Observe(Diff(last, entries[..i]), entries[i])
  {
    assert entries[..i + 1][..i] == entries[..i];
  }

  /** After a pass, an id seen for the last time at position i holds that position's record. */
  lemma {:induction false} DiffLastWins(last: map<string, string>, entries: seq<(string, string)>, i: int)
    requires 0 <= i < |entries|
    requires forall j :: i < j < |entries| ==> entries[j].0 != entries[i].0
    ensures entries[i].0 in Diff(last, entries).last
    ensures Diff(last, entries).last[entries[i].0] == entries[i].1
  {
    var prefix := entries[..|entries| - 1];
    if i < |entries| - 1 {
      DiffLastWins(last, prefix, i);
    }
  }

  /** The reference definition of what a pass sends when no id repeats: the records that differ
      from what the map held before the pass, in order. */
  function Changed(last: map<string, string>, entries: seq<(string, string)>): (r: seq<string>)
  {
    if entries == [] then []
    else
      var e := entries[|entries| - 1];
      Changed(last, entries[..|entries| - 1]) + (if e.0 in last && last[e.0] == e.1 then [] else [e.1])
  }

  lemma {:induction false} DiffSendsChanged(last: map<string, string>, entries: seq<(string, string)>)
    requires DistinctIds(entries)
    ensures Diff(last, entries).sent == Changed(last, entries)
  {
    if entries != [] {
      var prefix := entries[..|entries| - 1];
      var e := entries[|entries| - 1];
      assert e.0 !in Ids(prefix);
      DiffSendsChanged(last, prefix);
    }
  }

  /** A pass over records the map already holds sends nothing and changes nothing. */
  lemma {:induction false} DiffStable(last: map<string, string>, entries: seq<(string, string)>)
    requires forall e :: e in entries ==> e.0 in last && last[e.0] == e.1
    ensures Diff(last, entries) == Delta([], last)
  {
    if entries != [] {
      var prefix := entries[..|entries| - 1];
      assert forall e :: e in prefix ==> e in entries;
      DiffStable(last, prefix);
    }
  }

  /** Two passes over unchanged entities: the second sends nothing. */
  lemma DiffIdempotent(last: map<string, string>, entries: seq<(string, string)>)
    requires DistinctIds(entries)
    ensures Diff(Diff(last, entries).last, entries).sent == []
  {
    var m := Diff(last, entries).last;
    forall e | e in entries ensures e.0 in m && m[e.0] == e.1 {
      var i :| 0 <= i < |entries| && entries[i] == e;
      DiffLastWins(last, entries, i);
    }
    DiffStable(m, entries);
  }

  /** The (id, record) pair the broadcaster compares for one particle. */
  function ParticleEntry(b: SimBall.Ball, show: real -> string): (string, string)
    reads b
  {
    (b.id, ParticleRecord(b.id, b.State(), show))
  }

  /** The (id, record) pair the broadcaster compares for one explorer. */
  function ExplorerEntry(e: SimExplorer.Explorer, show: real -> string): (string, string)
    reads e
  {
    (e.id, ExplorerRecord(e.id, e.x, e.y, show))
  }

  /** The pairs of the particles in iteration order. */
  function ParticleEntries(particles: seq<SimBall.Ball>, show: real -> string): (r: seq<(string, string)>)
    reads particles
    ensures |r| == |particles| && forall i :: 0 <= i < |particles| ==> r[i] == ParticleEntry(particles[i], show)
  {
    seq(|particles|, i requires 0 <= i < |particles| reads particles => ParticleEntry(particles[i], show))
  }

  /** The pairs of the explorers in iteration order. */
  function ExplorerEntries(explorers: seq<SimExplorer.Explorer>, show: real -> string): (r: seq<(string, string)>)
    reads explorers
    ensures |r| == |explorers| && forall i :: 0 <= i < |explorers| ==> r[i] == ExplorerEntry(explorers[i], show)
  {
    seq(|explorers|, i requires 0 <= i < |explorers| reads explorers => ExplorerEntry(explorers[i], show))
  }

  /** The broadcaster's memory of what it last sent per id. */
  class Server {
    var lastExplorerState: map<string, string>
    var lastParticleState: map<string, string>

    constructor ()
      ensures lastExplorerState == map[] && lastParticleState == map[]
    {
      lastExplorerState := map[];
      lastParticleState := map[];
    }

    /** The particle records that changed since they were last sent. */
    method GetDeltaParticleData(particles: seq<SimBall.Ball>, show: real -> string) returns (deltaMessages: seq<string>)
      modifies this`lastParticleState
      ensures var d := Diff(old(lastParticleState), ParticleEntries(particles, show));
        deltaMessages == d.sent && lastParticleState == d.last
    {
      ghost var entries := ParticleEntries(particles, show);
      ghost var start := lastParticleState;
      deltaMessages := [];
      var i := 0;
      while i < |particles|
        invariant 0 <= i <= |particles|
        invariant deltaMessages == Diff(start, entries[..i]).sent
        invariant lastParticleState == Diff(start, entries[..i]).last
      {
        var (id, newState) := ParticleEntry(particles[i], show);
        assert entries[i] == (id, newState);
        DiffPrefix(start, entries, i);
        if !(id in lastParticleState && lastParticleState[id] == newState) {
          deltaMessages := deltaMessages + [newState];
          lastParticleState := lastParticleState[id := newState];
        }
        i := i + 1;
      }
      assert entries[..i] == entries;
      assert entries == ParticleEntries(particles, show);
    }

    /** The explorer records that changed since they were last sent. */
    method GetDeltaExplorerData(explorers: seq<SimExplorer.Explorer>, show: real -> string) returns (deltaMessages: seq<string>)
      modifies this`lastExplorerState
      ensures var d := Diff(old(lastExplorerState), ExplorerEntries(explorers, show));
        deltaMessages == d.sent && lastExplorerState == d.last
    {
      ghost var entries := ExplorerEntries(explorers, show);
      ghost var start := lastExplorerState;
      deltaMessages := [];
      var i := 0;
      while i < |explorers|
        invariant 0 <= i <= |explorers|
        invariant deltaMessages == Diff(start, entries[..i]).sent
        invariant lastExplorerState == Diff(start, entries[..i]).last
      {
        var (id, newState) := ExplorerEntry(explorers[i], show);
        assert entries[i] == (id, newState);
        DiffPrefix(start, entries, i);
        if !(id in lastExplorerState && lastExplorerState[id] == newState) {
          deltaMessages := deltaMessages + [newState];
          lastExplorerState := lastExplorerState[id := newState];
        }
        i := i + 1;
      }
      assert entries[..i] == entries;
      assert entries == ExplorerEntries(explorers, show);
    }
  }

  /** The velocity a key command sets, or `None` for a message that is not a command. */
  function CommandVelocity(message: string): (v: Option<(int, int)>)
    ensures v.Some? <==> message in {"MOVE_UP", "MOVE_DOWN", "MOVE_LEFT", "MOVE_RIGHT", "STOP_MOVE"}
    // every command moves along one axis at most, by 5 pixels per update
    ensures v.Some? ==> v.value.0 == 0 || v.value.1 == 0
    ensures v.Some? ==> -5 <= v.value.0 <= 5 && -5 <= v.value.1 <= 5
    ensures v == Some((0, 0)) <==> message == "STOP_MOVE"
  {
    match message
    case "MOVE_UP" => Some((0, -5))
    case "MOVE_DOWN" => Some((0, 5))
    case "MOVE_LEFT" => Some((-5, 0))
    case "MOVE_RIGHT" => Some((5, 0))
    case "STOP_MOVE" => Some((0, 0))
    case _ => None
  }

  /** On a canvas with room, an explorer steered by a command moves in the command's direction:
      up and left decrease the coordinate, down and right increase it. */
  lemma CommandDirection(message: string, m: Motion, width: int, height: int)
    requires CommandVelocity(message).Some?
    requires SimExplorer.Size as real + 5.0 <= m.x <= (width - SimExplorer.Size) as real - 10.0
    requires SimExplorer.Size as real + 5.0 <= m.y <= (height - SimExplorer.Size) as real - 10.0
    ensures var v := CommandVelocity(message).value;
      var r := SimExplorer.Step(m.(vx := v.0 as real, vy := v.1 as real), width, height);
      (message == "MOVE_UP" ==> r.y == m.y - 5.0 && r.x == m.x) &&
      (message == "MOVE_DOWN" ==> r.y == m.y + 5.0 && r.x == m.x) &&
      (message == "MOVE_LEFT" ==> r.x == m.x - 5.0 && r.y == m.y) &&
      (message == "MOVE_RIGHT" ==> r.x == m.x + 5.0 && r.y == m.y) &&
      (message == "STOP_MOVE" ==> r.x == m.x && r.y == m.y)
  {
  }

  /** The server side of one client connection, owning the explorer that client steers. */
  class ClientHandler {
    const explorer: SimExplorer.Explorer

    /** Every client starts with a stationary explorer in the middle of the 1280 x 720 canvas;
        `id` stands for the random UUID the source generates. */
    constructor (id: string)
      ensures fresh(explorer)
      ensures explorer.id == id && explorer.State() == Motion(640.0, 360.0, 0.0, 0.0)
    {
      explorer := new SimExplorer.Explorer(id, 640.0, 360.0);
    }

    /** A key command sets the explorer's velocity; anything else leaves it as it was. */
    method HandleClientMessage(message: string)
      modifies explorer
      ensures var v := CommandVelocity(message);
        explorer.State() == if v.Some? then old(explorer.State()).(vx := v.value.0 as real, vy := v.value.1 as real)
                            else old(explorer.State())
    {
      match message {
        case "MOVE_UP" => explorer.SetVelocity(0, -5);
        case "MOVE_DOWN" => explorer.SetVelocity(0, 5);
        case "MOVE_LEFT" => explorer.SetVelocity(-5, 0);
        case "MOVE_RIGHT" => explorer.SetVelocity(5, 0);
        case "STOP_MOVE" => explorer.SetVelocity(0, 0);
        case _ =>
      }
    }
  }
}

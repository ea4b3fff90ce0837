/** The hub: subscriptions sharded by stream over gates of nested maps, with a registry of
sessions and their reverse lists, refining the flat relation of HubState. */
module SessionHub {
  import opened Basics
  import opened HubState

  // stream -> session -> identifiers
  type GateMap = map<Stream, map<Sid, set<Id>>>

  predicate In(g: GateMap, r: Row) {
    r.stream in g && r.sid in g[r.stream] && r.id in g[r.stream][r.sid]
  }

  function Rows(g: GateMap): (rows: set<Row>)
    ensures forall r :: r in rows <==> In(g, r)
  {
    set s, sid, id | s in g && sid in g[s] && id in g[s][sid] :: Row(sid, s, id)
  }

  // No stream without sessions, no session without identifiers.
  ghost predicate NoEmpty(g: GateMap) {
    forall s :: s in g ==> g[s] != map[] && forall sid :: sid in g[s] ==> g[s][sid] != {}
  }

  function Ids(g: GateMap, s: Stream, sid: Sid): set<Id> {
    if s in g && sid in g[s] then g[s][sid] else {}
  }

  // Sets the identifiers of one session on one stream, leaving nothing empty behind.
  function PutIds(g: GateMap, s: Stream, sid: Sid, ids: set<Id>): GateMap {
    var row := if s in g then g[s] else map[];
    var row' := if ids == {} then row - {sid} else row[sid := ids];
    if row' == map[] then g - {s} else g[s := row']
  }

  lemma PutIdsEffect(g: GateMap, s: Stream, sid: Sid, ids: set<Id>)
    requires NoEmpty(g)
    ensures var g' := PutIds(g, s, sid, ids);
            && NoEmpty(g')
            && g'.Keys <= g.Keys + {s}
            && forall r :: In(g', r) <==> if r.stream == s && r.sid == sid then r.id in ids else In(g, r)
  {
    var row := if s in g then g[s] else map[];
    var row' := if ids == {} then row - {sid} else row[sid := ids];
    var g' := PutIds(g, s, sid, ids);
    assert ids != {} ==> sid in row';
    forall r ensures In(g', r) <==> if r.stream == s && r.sid == sid then r.id in ids else In(g, r) {
      assert r.stream == s && r.sid != sid ==> (r.sid in row <==> r.sid in row');
    }
  }

  datatype Message = Message(
    stream: Stream, data: string, offset: nat, epoch: string, exclude: Option<Sid>, kind: Option<string>)

  datatype Reply = Reply(id: Id, data: string, stream: Stream, offset: nat, epoch: string, kind: string)

  function BuildMessage(m: Message, id: Id): Reply {
    Reply(id, m.data, if m.epoch != "" then m.stream else "", m.offset, m.epoch,
          if m.kind.Some? then m.kind.value else "")
  }

  // A send to a session; `excluded` rows are those of the socket the message came from.
  datatype Send = Send(sid: Sid, reply: Reply)

  predicate Excluded(m: Message, sid: Sid) {
    m.exclude.Some? && m.exclude.value != "" && m.exclude.value == sid
  }

  // The sends a broadcast owes: to the rows of its stream, in the form their channel expects.
  predicate Due(g: GateMap, m: Message, x: Send) {
    && x.reply == BuildMessage(m, x.reply.id)
    && In(g, Row(x.sid, m.stream, x.reply.id))
    && !Excluded(m, x.sid)
  }

  class Gate {
    var streams: GateMap

    constructor ()
      ensures streams == map[]
    {
      streams := map[];
    }

    // The three nested insertions.
    method Insert(sid: Sid, s: Stream, id: Id)
      modifies this
      ensures streams == PutIds(old(streams), s, sid, Ids(old(streams), s, sid) + {id})
    {
      ghost var row := if s in streams then streams[s] else map[];
      if s !in streams {
        streams := streams[s := map[]];
      }
      if sid !in streams[s] {
        streams := streams[s := streams[s][sid := {}]];
      }
      streams := streams[s := streams[s][sid := streams[s][sid] + {id}]];
      assert streams[s] == row[sid := Ids(old(streams), s, sid) + {id}];
      assert sid in streams[s];
      assert streams == old(streams)[s := streams[s]];
    }

    method Subscribe(sid: Sid, s: Stream, id: Id)
      requires NoEmpty(streams)
      modifies this
      ensures NoEmpty(streams) && Rows(streams) == old(Rows(streams)) + {Row(sid, s, id)}
      ensures streams.Keys <= old(streams.Keys) + {s}
    {
      hide NoEmpty, PutIds;
      PutIdsEffect(streams, s, sid, Ids(streams, s, sid) + {id});
      Insert(sid, s, id);
    }

    // The nested deletions, for an identifier that is there.
    method Delete(sid: Sid, s: Stream, id: Id)
      requires In(streams, Row(sid, s, id))
      modifies this
      ensures streams == PutIds(old(streams), s, sid, Ids(old(streams), s, sid) - {id})
    {
      var ids := streams[s][sid] - {id};
      if |ids| > 0 {
        streams := streams[s := streams[s][sid := ids]];
        assert sid in streams[s];
      } else {
        var row := streams[s] - {sid};
        streams := if |row| == 0 then streams - {s} else streams[s := row];
      }
    }

    method Unsubscribe(sid: Sid, s: Stream, id: Id)
      requires NoEmpty(streams)
      modifies this
      ensures NoEmpty(streams) && Rows(streams) == old(Rows(streams)) - {Row(sid, s, id)}
      ensures streams.Keys <= old(streams.Keys)
    {
      hide NoEmpty, PutIds;
      if s !in streams || sid !in streams[s] || id !in streams[s][sid] {
        return;
      }
      PutIdsEffect(streams, s, sid, Ids(streams, s, sid) - {id});
      Delete(sid, s, id);
    }

    // Every (session, identifier) of the stream once, in the arbitrary order of map iteration.
    method Snapshot(s: Stream) returns (rows: seq<(Sid, Id)>)
      ensures forall i, j :: 0 <= i < j < |rows| ==> rows[i] != rows[j]
      ensures forall sid, id :: (sid, id) in rows <==> In(streams, Row(sid, s, id))
    {
      rows := [];
      if s !in streams {
        return;
      }
      var src := streams[s];
      var todo := src.Keys;
      while todo != {}
        invariant todo <= src.Keys
        invariant forall i, j :: 0 <= i < j < |rows| ==> rows[i] != rows[j]
        invariant forall sid, id :: (sid, id) in rows <==> sid in src && sid !in todo && id in src[sid]
      {
        var sid :| sid in todo;
        var ids := src[sid];
        while ids != {}
          invariant ids <= src[sid]
          invariant forall i, j :: 0 <= i < j < |rows| ==> rows[i] != rows[j]
          invariant forall x, id :: (x, id) in rows <==>
            (x in src && x !in todo && id in src[x]) || (x == sid && id in src[sid] && id !in ids)
        {
          var id :| id in ids;
          rows := rows + [(sid, id)];
          ids := ids - {id};
        }
        todo := todo - {sid};
      }
    }

    // Sends once to every row of the stream except those of the excluded socket, each with
    // the reply built for its identifier, although replies are built once per identifier.
    method Broadcast(m: Message) returns (sends: seq<Send>)
      ensures forall i, j :: 0 <= i < j < |sends| ==> sends[i] != sends[j]
      ensures forall x :: x in sends <==> Due(streams, m, x)
    {
      sends := [];
      if m.stream !in streams {
        return;
      }
      var rows := Snapshot(m.stream);
      var buf: map<Id, Reply> := map[];
      for i := 0 to |rows|
        invariant forall id :: id in buf ==> buf[id] == BuildMessage(m, id)
        invariant forall x :: x in sends <==> Due(streams, m, x) && (x.sid, x.reply.id) in rows[..i]
        invariant forall a, b :: 0 <= a < b < |sends| ==> sends[a] != sends[b]
      {
        var (sid, id) := rows[i];
        assert rows[..i + 1] == rows[..i] + [rows[i]];
        if !Excluded(m, sid) {
          if id !in buf {
            buf := buf[id := BuildMessage(m, id)];
          }
          assert (sid, id) !in rows[..i];
          sends := sends + [Send(sid, buf[id])];
        }
      }
      assert rows[..|rows|] == rows;
    }
  }

  // ---------- Sharding ----------

  function AllRows(gs: seq<GateMap>): (rows: set<Row>)
    ensures forall r :: r in rows <==> exists i :: 0 <= i < |gs| && In(gs[i], r)
  {
    if gs == [] then {} else AllRows(gs[..|gs| - 1]) + Rows(gs[|gs| - 1])
  }

  // Every stream lives only in its own gate.
  ghost predicate Placed(gs: seq<GateMap>, shard: Stream -> nat) {
    forall i, s :: 0 <= i < |gs| && s in gs[i] ==> shard(s) == i
  }

  lemma GateGains(gs: seq<GateMap>, g: nat, m: GateMap, r: Row)
    requires g < |gs| && Rows(m) == Rows(gs[g]) + {r}
    ensures AllRows(gs[g := m]) == AllRows(gs) + {r}
  {
    hide AllRows, Rows, In;
    var after := gs[g := m];
    assert forall x :: In(m, x) <==> In(gs[g], x) || x == r by { RowsMean(m); RowsMean(gs[g]); }
    forall x ensures x in AllRows(after) <==> x in AllRows(gs) || x == r {
      if i :| 0 <= i < |gs| && In(gs[i], x) {
        assert In(after[i], x);
      }
      if x == r { assert In(after[g], x); }
      if i :| 0 <= i < |after| && In(after[i], x) {
        assert In(gs[i], x) || x == r;
      }
    }
  }

  lemma RowsMean(g: GateMap)
    ensures forall r :: r in Rows(g) <==> In(g, r)
  {
  }

  lemma GateLoses(gs: seq<GateMap>, g: nat, m: GateMap, r: Row, shard: Stream -> nat)
    requires g < |gs| && Placed(gs, shard) && shard(r.stream) == g && Rows(m) == Rows(gs[g]) - {r}
    ensures AllRows(gs[g := m]) == AllRows(gs) - {r}
  {
    hide AllRows, Rows;
    var after := gs[g := m];
    assert forall x :: In(m, x) <==> In(gs[g], x) && x != r by { RowsMean(m); RowsMean(gs[g]); }
    forall x ensures x in AllRows(after) <==> x in AllRows(gs) && x != r {
      if i :| 0 <= i < |gs| && In(gs[i], x) {
        assert x != r ==> In(after[i], x);
      }
      if i :| 0 <= i < |after| && In(after[i], x) {
        assert In(gs[i], x) && x != r;
      }
    }
  }

  class Hub {
    const gates: seq<Gate>
    const shard: Stream -> nat
    var sessions: map<Sid, seq<Pair>>
    var identifiers: map<string, set<Sid>>

    ghost function Maps(): seq<GateMap>
      reads gates
    {
      seq(|gates|, i requires 0 <= i < |gates| reads gates => gates[i].streams)
    }

    ghost predicate Valid()
      reads this, gates
    {
      && (forall s :: shard(s) < |gates|)
      && (forall i, j :: 0 <= i < j < |gates| ==> gates[i] != gates[j])
      && (forall i :: 0 <= i < |gates| ==> NoEmpty(gates[i].streams))
      && Placed(Maps(), shard)
      && (forall k :: k in identifiers ==> identifiers[k] != {})
    }

    ghost function View(): State
      reads this, gates
    {
      State(AllRows(Maps()), sessions)
    }

    // The sessions that share these connection identifiers.
    ghost function Carriers(ids: string): set<Sid>
      reads this
    {
      if ids in identifiers then identifiers[ids] else {}
    }

    method GateSubscribe(sid: Sid, s: Stream, id: Id)
      requires Valid()
      modifies gates
      ensures Valid() && AllRows(Maps()) == old(AllRows(Maps())) + {Row(sid, s, id)}
    {
      hide AllRows, Rows, In, NoEmpty;
      var g := shard(s);
      ghost var before := Maps();
      gates[g].Subscribe(sid, s, id);
      assert Maps() == before[g := gates[g].streams];
      GateGains(before, g, gates[g].streams, Row(sid, s, id));
    }

    method GateUnsubscribe(sid: Sid, s: Stream, id: Id)
      requires Valid()
      modifies gates
      ensures Valid() && AllRows(Maps()) == old(AllRows(Maps())) - {Row(sid, s, id)}
    {
      hide AllRows, Rows, In, NoEmpty;
      var g := shard(s);
      ghost var before := Maps();
      gates[g].Unsubscribe(sid, s, id);
      assert Maps() == before[g := gates[g].streams];
      GateLoses(before, g, gates[g].streams, Row(sid, s, id), shard);
    }

    constructor (poolSize: nat, index: Stream -> nat)
      requires forall s :: index(s) < poolSize
      ensures Valid() && fresh(gates) && |gates| == poolSize && shard == index
      ensures View() == State({}, map[])
    {
      var gs := BuildGates(poolSize);
      gates, shard, sessions, identifiers := gs, index, map[], map[];
      new;
      assert forall i :: 0 <= i < |Maps()| ==> Maps()[i] == map[];
    }

    method AddSession(sid: Sid, ids: string)
      requires Valid()
      modifies this
      ensures Valid() && View() == Register(old(View()), sid)
      ensures forall k :: Carriers(k) == old(Carriers(k)) + if k == ids then {sid} else {}
    {
      hide AllRows, Placed, NoEmpty, Rows;
      sessions := sessions[sid := []];
      var known := if ids in identifiers then identifiers[ids] else {};
      identifiers := identifiers[ids := known + {sid}];
    }

    method SubscribeSession(sid: Sid, s: Stream, id: Id)
      requires Valid()
      modifies this`sessions, gates
      ensures Valid() && View() == Subscribe(old(View()), sid, s, id)
    {
      hide AllRows, Placed, NoEmpty, Rows;
      GateSubscribe(sid, s, id);
      var known := if sid in sessions then sessions[sid] else [];
      sessions := sessions[sid := known + [(s, id)]];
    }

    method UnsubscribeSession(sid: Sid, s: Stream, id: Id)
      requires Valid()
      modifies this`sessions, gates
      ensures Valid() && View() == Unsubscribe(old(View()), sid, s, id)
    {
      hide AllRows, Placed;
      GateUnsubscribe(sid, s, id);
      if sid in sessions {
        var rest, found := Cut(sessions[sid], (s, id));
        sessions := sessions[sid := rest];
      }
    }

    method UnsubscribeSessionFromChannel(sid: Sid, target: Id)
      requires Valid()
      modifies this`sessions, gates
      ensures Valid() && View() == UnsubscribeChannel(old(View()), sid, target)
    {
      hide Partway, AllRows, Placed, NoEmpty;
      if sid !in sessions {
        return;
      }
      PartwayStart(View(), sid, target);
      var toRemove := Select(sessions[sid], target);
      ghost var h := View();
      for i := 0 to |toRemove|
        invariant Valid() && Partway(h, View(), sid, target, toRemove, i)
      {
        var (s, id) := toRemove[i];
        PartwayStep(h, View(), sid, target, toRemove, i);
        UnsubscribeSession(sid, s, id);
      }
      PartwayEnd(h, View(), sid, target, toRemove);
    }

    method RemoveSession(sid: Sid, ids: string)
      requires Valid()
      modifies this, gates
      ensures Valid() && View() == Unregister(old(View()), sid)
      ensures forall k :: Carriers(k) == old(Carriers(k)) - if k == ids && sid in old(sessions) then {sid} else {}
    {
      hide AllRows, Placed, NoEmpty;
      if sid !in sessions {
        return;
      }
      var list := sessions[sid];
      ghost var rows := View().rows;
      for i := 0 to |list|
        invariant Valid() && sessions == old(sessions) && identifiers == old(identifiers)
        invariant View().rows == rows - Named(sid, list[..i])
      {
        GateUnsubscribe(sid, list[i].0, list[i].1);
        assert list[..i + 1] == list[..i] + [list[i]];
      }
      assert list[..|list|] == list;
      sessions := sessions - {sid};
      if ids in identifiers {
        var left := identifiers[ids] - {sid};
        identifiers := if left == {} then identifiers - {ids} else identifiers[ids := left];
      }
    }

    // The number of streams somebody listens to.
    method StreamsSize() returns (size: nat)
      requires Valid()
      ensures size == |set r | r in View().rows :: r.stream|
    {
      hide AllRows, NoEmpty, Placed, Streams;
      size := 0;
      ghost var gs := Maps();
      NoStreams();
      for i := 0 to |gates|
        invariant size == |Streams(gs[..i])|
      {
        StreamsStep(gs, shard, i);
        assert gs[i] == gates[i].streams;
        size := size + |gates[i].streams|;
      }
      assert gs[..|gs|] == gs;
      LiveStreams(gs);
    }

    // Delivery is exact, whatever the run that led here: a broadcast reaches the rows of its
    // stream, once each, and nobody else.
    method BroadcastToStream(m: Message) returns (sends: seq<Send>)
      requires Valid()
      ensures forall i, j :: 0 <= i < j < |sends| ==> sends[i] != sends[j]
      ensures forall x :: x in sends <==>
                && Row(x.sid, m.stream, x.reply.id) in View().rows
                && (m.exclude == Some(x.sid) ==> x.sid == "")
                && x.reply.data == m.data && x.reply.offset == m.offset && x.reply.epoch == m.epoch
                && x.reply.stream == (if m.epoch == "" then "" else m.stream)
                && x.reply.kind == (if m.kind.None? then "" else m.kind.value)
    {
      hide AllRows, Rows;
      sends := gates[shard(m.stream)].Broadcast(m);
      OwnGate(Maps(), shard, m.stream);
    }
  }

  method BuildGates(n: nat) returns (gs: seq<Gate>)
    ensures |gs| == n && fresh(gs)
    ensures forall i :: 0 <= i < n ==> gs[i].streams == map[]
    ensures forall i, j :: 0 <= i < j < n ==> gs[i] != gs[j]
  {
    gs := [];
    for k := 0 to n
      invariant |gs| == k && fresh(gs)
      invariant forall i :: 0 <= i < k ==> gs[i].streams == map[]
      invariant forall i, j :: 0 <= i < j < k ==> gs[i] != gs[j]
    {
      var g := new Gate();
      gs := gs + [g];
    }
  }

  method Select(list: seq<Pair>, id: Id) returns (r: seq<Pair>)
    ensures r == Only(list, id)
  {
    r := [];
    for i := 0 to |list|
      invariant Only(list, id) == r + Only(list[i..], id)
    {
      if list[i].1 == id {
        r := r + [list[i]];
      }
    }
  }

  // Splicing out the first remaining pair of a channel leaves the others alone.
  lemma {:induction false} RemoveNext(list: seq<Pair>, id: Id)
    requires Only(list, id) != []
    ensures var x := Only(list, id)[0];
            && Only(Without(list, x), id) == Only(list, id)[1..]
            && Except(Without(list, x), id) == Except(list, id)
  {
    if list[0].1 != id {
      RemoveNext(list[1..], id);
      var x := Only(list[1..], id)[0];
      OnlyExcept(list[1..], id);
      assert x in Only(list[1..], id) && x.1 == id;
      assert Without(list, x) == [list[0]] + Without(list[1..], x);
    }
  }

  lemma {:induction false} NothingLeft(list: seq<Pair>, id: Id)
    requires Only(list, id) == []
    ensures list == Except(list, id)
  {
    if list != [] {
      NothingLeft(list[1..], id);
    }
  }

  // How far leaving a channel has come after `i` of the selected pairs.
  ghost predicate Partway(h: State, now: State, sid: Sid, id: Id, pairs: seq<Pair>, i: nat) {
    && i <= |pairs| && sid in h.lists && sid in now.lists
    && now.lists == h.lists[sid := now.lists[sid]]
    && now.rows == h.rows - Named(sid, pairs[..i])
    && Only(now.lists[sid], id) == pairs[i..]
    && Except(now.lists[sid], id) == Except(h.lists[sid], id)
  }

  lemma PartwayStart(h: State, sid: Sid, id: Id)
    requires sid in h.lists
    ensures Partway(h, h, sid, id, Only(h.lists[sid], id), 0)
  {
    assert h.lists == h.lists[sid := h.lists[sid]];
  }

  lemma PartwayStep(h: State, now: State, sid: Sid, id: Id, pairs: seq<Pair>, i: nat)
    requires i < |pairs| && Partway(h, now, sid, id, pairs, i)
    ensures Partway(h, Unsubscribe(now, sid, pairs[i].0, pairs[i].1), sid, id, pairs, i + 1)
  {
    RemoveNext(now.lists[sid], id);
    assert pairs[..i + 1] == pairs[..i] + [pairs[i]];
    var after := Unsubscribe(now, sid, pairs[i].0, pairs[i].1);
    assert after.lists == h.lists[sid := after.lists[sid]];
  }

  lemma PartwayEnd(h: State, now: State, sid: Sid, id: Id, pairs: seq<Pair>)
    requires Partway(h, now, sid, id, pairs, |pairs|) && pairs == Only(h.lists[sid], id)
    ensures now == UnsubscribeChannel(h, sid, id)
  {
    NothingLeft(now.lists[sid], id);
    assert pairs[..|pairs|] == pairs;
  }

  function Streams(gs: seq<GateMap>): set<Stream> {
    if gs == [] then {} else Streams(gs[..|gs| - 1]) + gs[|gs| - 1].Keys
  }

  lemma NoStreams()
    ensures |Streams([])| == 0
  {
  }

  lemma {:induction false} StreamsMean(gs: seq<GateMap>, s: Stream)
    ensures s in Streams(gs) <==> exists j :: 0 <= j < |gs| && s in gs[j]
  {
    if gs != [] {
      StreamsMean(gs[..|gs| - 1], s);
    }
  }

  lemma StreamsMore(gs: seq<GateMap>, i: nat)
    requires i < |gs|
    ensures Streams(gs[..i + 1]) == Streams(gs[..i]) + gs[i].Keys
  {
    assert gs[..i + 1][..i] == gs[..i];
  }

  lemma ElsewhereMissing(gs: seq<GateMap>, shard: Stream -> nat, i: nat, s: Stream)
    requires i < |gs| && Placed(gs, shard) && s in gs[i]
    ensures s !in Streams(gs[..i])
  {
    hide Streams;
    StreamsMean(gs[..i], s);
    assert shard(s) == i;
    assert forall j :: 0 <= j < i ==> gs[..i][j] == gs[j];
  }

  lemma UnionSize<T>(a: set<T>, b: set<T>)
    requires a !! b
    ensures |a + b| == |a| + |b|
  {
  }

  // Gates share no stream, so sizes add up.
  lemma StreamsStep(gs: seq<GateMap>, shard: Stream -> nat, i: nat)
    requires i < |gs| && Placed(gs, shard)
    ensures |Streams(gs[..i + 1])| == |Streams(gs[..i])| + |gs[i]|
  {
    hide Streams, Placed;
    forall s | s in gs[i].Keys ensures s !in Streams(gs[..i]) {
      ElsewhereMissing(gs, shard, i, s);
    }
    StreamsMore(gs, i);
    UnionSize(Streams(gs[..i]), gs[i].Keys);
    assert |gs[i].Keys| == |gs[i]|;
  }

  lemma LiveStreams(gs: seq<GateMap>)
    requires forall i :: 0 <= i < |gs| ==> NoEmpty(gs[i])
    ensures Streams(gs) == set r | r in AllRows(gs) :: r.stream
  {
    hide Streams;
    forall s | s in Streams(gs) ensures exists r :: r in AllRows(gs) && r.stream == s {
      StreamsMean(gs, s);
      var j :| 0 <= j < |gs| && s in gs[j];
      var sid :| sid in gs[j][s];
      var id :| id in gs[j][s][sid];
      assert In(gs[j], Row(sid, s, id));
      assert Row(sid, s, id) in AllRows(gs);
    }
    forall r | r in AllRows(gs) ensures r.stream in Streams(gs) {
      StreamsMean(gs, r.stream);
      var j :| 0 <= j < |gs| && In(gs[j], r);
    }
  }

  lemma OwnGate(gs: seq<GateMap>, shard: Stream -> nat, s: Stream)
    requires Placed(gs, shard) && shard(s) < |gs|
    ensures forall r: Row :: r.stream == s ==> (r in AllRows(gs) <==> In(gs[shard(s)], r))
  {
  }
}

/** Who listens to what, as one flat relation: the specification of the sharded hub, and what
every run of its operations keeps. */
module HubState {
  import opened Basics

  type Sid = string
  type Stream = string
  type Id = string

  datatype Row = Row(sid: Sid, stream: Stream, id: Id)

  type Pair = (Stream, Id)

  // The rows, and each registered session's list of subscriptions, where a pair may repeat.
  datatype State = State(rows: set<Row>, lists: map<Sid, seq<Pair>>)

  function ListOf(h: State, sid: Sid): seq<Pair> {
    if sid in h.lists then h.lists[sid] else []
  }

  function Named(sid: Sid, list: seq<Pair>): set<Row> {
    set p | p in list :: Row(sid, p.0, p.1)
  }

  function Only(list: seq<Pair>, id: Id): seq<Pair> {
    if list == [] then [] else
    (if list[0].1 == id then [list[0]] else []) + Only(list[1..], id)
  }

  function Except(list: seq<Pair>, id: Id): seq<Pair> {
    if list == [] then [] else
    (if list[0].1 != id then [list[0]] else []) + Except(list[1..], id)
  }

  // ---------- The operations ----------

  function Register(h: State, sid: Sid): State {
    h.(lists := h.lists[sid := []])
  }

  function Subscribe(h: State, sid: Sid, s: Stream, id: Id): State {
    State(h.rows + {Row(sid, s, id)}, h.lists[sid := ListOf(h, sid) + [(s, id)]])
  }

  function Unsubscribe(h: State, sid: Sid, s: Stream, id: Id): State {
    State(h.rows - {Row(sid, s, id)},
          if sid in h.lists then h.lists[sid := Without(h.lists[sid], (s, id))] else h.lists)
  }

  function UnsubscribeChannel(h: State, sid: Sid, id: Id): State {
    if sid !in h.lists then h else
    State(h.rows - Named(sid, Only(h.lists[sid], id)), h.lists[sid := Except(h.lists[sid], id)])
  }

  function Unregister(h: State, sid: Sid): State {
    if sid !in h.lists then h else State(h.rows - Named(sid, h.lists[sid]), h.lists - {sid})
  }

  // ---------- The reverse lists cover the rows ----------

  predicate Free(h: State, sid: Sid) {
    forall r :: r in h.rows ==> r.sid != sid
  }

  predicate Listed(h: State, r: Row) {
    r.sid in h.lists && (r.stream, r.id) in h.lists[r.sid]
  }

  function RowsOf(rows: set<Row>, sid: Sid): set<Row> {
    set r | r in rows && r.sid == sid
  }

  ghost predicate Covered(h: State) {
    forall r :: r in h.rows ==> Listed(h, r)
  }

  lemma RegisterLists(h: State, sid: Sid)
    ensures forall r :: Listed(Register(h, sid), r) <==> Listed(h, r) && r.sid != sid
  {
  }

  lemma SubscribeLists(h: State, sid: Sid, s: Stream, id: Id)
    ensures forall r :: Listed(Subscribe(h, sid, s, id), r) <==> Listed(h, r) || r == Row(sid, s, id)
  {
  }

  lemma {:induction false} OnlyExcept(list: seq<Pair>, id: Id)
    ensures forall p :: p in Only(list, id) <==> p in list && p.1 == id
    ensures forall p :: p in Except(list, id) <==> p in list && p.1 != id
  {
    if list != [] {
      OnlyExcept(list[1..], id);
      assert list == [list[0]] + list[1..];
    }
  }

  lemma {:induction false} WithoutKeeps(list: seq<Pair>, x: Pair)
    ensures forall p :: p in list && p != x ==> p in Without(list, x)
  {
    if list != [] && list[0] != x {
      WithoutKeeps(list[1..], x);
    }
  }

  // Registering an id again forgets its list: the cover survives exactly when it had no rows.
  lemma RegisterCoversIff(h: State, sid: Sid)
    requires Covered(h)
    ensures Covered(Register(h, sid)) <==> Free(h, sid)
  {
    if Covered(Register(h, sid)) {
      forall r | r in h.rows ensures r.sid != sid {
        assert r in Register(h, sid).rows;
      }
    }
  }

  // Leaving a channel or the hub removes every row concerned, although only listed pairs are
  // looked at.
  lemma ChannelLeavesNothing(h: State, sid: Sid, id: Id)
    requires Covered(h)
    ensures var h' := UnsubscribeChannel(h, sid, id);
            && Covered(h')
            && h'.rows == set r | r in h.rows && !(r.sid == sid && r.id == id)
  {
    if sid in h.lists {
      OnlyExcept(h.lists[sid], id);
    }
  }

  lemma UnregisterLeavesNothing(h: State, sid: Sid)
    requires Covered(h)
    ensures var h' := Unregister(h, sid);
            Covered(h') && Free(h', sid) && h'.rows == set r | r in h.rows && r.sid != sid
  {
  }

  lemma UnsubscribeCovers(h: State, sid: Sid, s: Stream, id: Id)
    requires Covered(h)
    ensures Covered(Unsubscribe(h, sid, s, id))
  {
    if sid in h.lists {
      WithoutKeeps(h.lists[sid], (s, id));
    }
  }

  // The reverse lists hold nothing stale: leaving a channel clears all its pairs and no other,
  // unsubscribing takes out one pair, and unregistering the list.
  lemma ListsShrink(h: State, sid: Sid, s: Stream, id: Id)
    requires sid in h.lists
    ensures var left := UnsubscribeChannel(h, sid, id).lists;
            left.Keys == h.lists.Keys && forall p :: p in left[sid] <==> p in h.lists[sid] && p.1 != id
    ensures var left := Unsubscribe(h, sid, s, id).lists;
            left.Keys == h.lists.Keys && multiset(left[sid]) == multiset(h.lists[sid]) - multiset{(s, id)}
    ensures Unregister(h, sid).lists == h.lists - {sid}
  {
    hide Only, Except, Without, Named;
    OnlyExcept(h.lists[sid], id);
    WithoutCount(h.lists[sid], (s, id));
  }

  lemma {:induction false} WithoutCount(list: seq<Pair>, x: Pair)
    ensures multiset(Without(list, x)) == multiset(list) - multiset{x}
  {
    if list != [] {
      assert list == [list[0]] + list[1..];
      if list[0] != x {
        WithoutCount(list[1..], x);
      }
    }
  }

  datatype Op =
    | OpRegister(sid: Sid)
    | OpSubscribe(sid: Sid, s: Stream, id: Id)
    | OpUnsubscribe(sid: Sid, s: Stream, id: Id)
    | OpLeaveChannel(sid: Sid, id: Id)
    | OpUnregister(sid: Sid)

  function Step(h: State, op: Op): State {
    match op
    case OpRegister(sid) => Register(h, sid)
    case OpSubscribe(sid, s, id) => Subscribe(h, sid, s, id)
    case OpUnsubscribe(sid, s, id) => Unsubscribe(h, sid, s, id)
    case OpLeaveChannel(sid, id) => UnsubscribeChannel(h, sid, id)
    case OpUnregister(sid) => Unregister(h, sid)
  }

  function Run(ops: seq<Op>): State {
    if ops == [] then State({}, map[]) else Step(Run(ops[..|ops| - 1]), ops[|ops| - 1])
  }

  // Session ids are unique: none is registered while it has subscriptions.
  ghost predicate UniqueIds(ops: seq<Op>) {
    ops == [] || (
      && UniqueIds(ops[..|ops| - 1])
      && (ops[|ops| - 1].OpRegister? ==> Free(Run(ops[..|ops| - 1]), ops[|ops| - 1].sid)))
  }

  // What a run of operations means, without the lists: a row is live when its last
  // subscription was not followed by anything that ends it.
  ghost predicate Live(ops: seq<Op>, r: Row) {
    ops != [] &&
    var op := ops[|ops| - 1];
    match op
    case OpRegister(_) => Live(ops[..|ops| - 1], r)
    case OpSubscribe(sid, s, id) => r == Row(sid, s, id) || Live(ops[..|ops| - 1], r)
    case OpUnsubscribe(sid, s, id) => r != Row(sid, s, id) && Live(ops[..|ops| - 1], r)
    case OpLeaveChannel(sid, id) => !(r.sid == sid && r.id == id) && Live(ops[..|ops| - 1], r)
    case OpUnregister(sid) => r.sid != sid && Live(ops[..|ops| - 1], r)
  }

  lemma {:induction false} RunIsLive(ops: seq<Op>)
    requires UniqueIds(ops)
    ensures Covered(Run(ops))
    ensures forall r :: r in Run(ops).rows <==> Live(ops, r)
  {
    if ops != [] {
      var init := ops[..|ops| - 1];
      RunIsLive(init);
      match ops[|ops| - 1] {
        case OpRegister(sid) => RegisterCoversIff(Run(init), sid);
        case OpSubscribe(sid, s, id) =>
        case OpUnsubscribe(sid, s, id) => UnsubscribeCovers(Run(init), sid, s, id);
        case OpLeaveChannel(sid, id) => ChannelLeavesNothing(Run(init), sid, id);
        case OpUnregister(sid) => UnregisterLeavesNothing(Run(init), sid);
      }
    }
  }

  lemma RunMore(ops: seq<Op>, op: Op)
    ensures Run(ops + [op]) == Step(Run(ops), op)
  {
    assert (ops + [op])[..|ops|] == ops;
  }

  // An id registered again while it has a row: the row survives the session's removal, and no
  // list leads to it any more.
  lemma RegisteredTwiceStays(sid: Sid, s: Stream, id: Id)
    ensures var h := Run([OpRegister(sid), OpSubscribe(sid, s, id), OpRegister(sid), OpUnregister(sid)]);
            h.rows == {Row(sid, s, id)} && h.lists == map[]
  {
    hide Run;
    var none: seq<Op> := [];
    var a, b, c := OpRegister(sid), OpSubscribe(sid, s, id), OpUnregister(sid);
    NothingRun();
    RunMore(none, a);
    RunMore(none + [a], b);
    RunMore(none + [a] + [b], a);
    RunMore(none + [a] + [b] + [a], c);
    assert none + [a] + [b] + [a] + [c] == [a, b, a, c];
    var h := Run(none + [a] + [b] + [a]);
    assert h.lists == map[sid := []];
    assert Named(sid, []) == {};
  }

  // The same happens to a row made before the first registration.
  lemma SubscribedEarlyStays(sid: Sid, s: Stream, id: Id)
    ensures var h := Run([OpSubscribe(sid, s, id), OpRegister(sid), OpUnregister(sid)]);
            h.rows == {Row(sid, s, id)} && h.lists == map[]
  {
    hide Run;
    var none: seq<Op> := [];
    var a, b, c := OpRegister(sid), OpSubscribe(sid, s, id), OpUnregister(sid);
    NothingRun();
    RunMore(none, b);
    RunMore(none + [b], a);
    RunMore(none + [b] + [a], c);
    assert none + [b] + [a] + [c] == [b, a, c];
    assert Run(none + [b] + [a]).lists == map[sid := []];
    assert Named(sid, []) == {};
  }

  lemma NothingRun()
    ensures Run([]) == State({}, map[])
  {
  }
}

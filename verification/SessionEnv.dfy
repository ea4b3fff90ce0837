/** The state a session carries for resuming: identifiers, connection and channel fields, and
subscriptions; how replies merge into it, and how a snapshot of it restores. */
module SessionEnv {
  import opened Basics
  import N = Node
  import NS = NodeState

  type Fields = map<string, string>
  type Channels = map<string, set<string>>

  datatype Env = Env(ids: string, conn: Fields, channels: map<string, Fields>)

  datatype State = State(env: Env, subs: Channels, disconnectable: bool)

  const FRESH_ENV := Env("", map[], map[])
  const FRESH := State(FRESH_ENV, map[], false)

  // ---------- Merging ----------

  // An empty value deletes its key, any other is written.
  function Merge(cur: Fields, other: Fields): (r: Fields)
    ensures forall k :: k in r <==> if k in other then other[k] != "" else k in cur
    ensures forall k :: k in r ==> r[k] == if k in other then other[k] else cur[k]
  {
    map k | k in cur.Keys + other.Keys && (k in other ==> other[k] != "") :: if k in other then other[k] else cur[k]
  }

  function Field(channels: map<string, Fields>, id: string): Fields {
    if id in channels then channels[id] else map[]
  }

  datatype Op =
    | MergeConnection(other: Fields)
    | MergeChannel(id: string, other: Fields)
    | RemoveChannel(id: string)
    | SetIdentifiers(ids: string)

  function Step(e: Env, op: Op): Env {
    match op
    case MergeConnection(other) => e.(conn := Merge(e.conn, other))
    case MergeChannel(id, other) => e.(channels := e.channels[id := Merge(Field(e.channels, id), other)])
    case RemoveChannel(id) => e.(channels := e.channels - {id})
    case SetIdentifiers(ids) => e.(ids := ids)
  }

  function Run(ops: seq<Op>): Env {
    if ops == [] then FRESH_ENV else Step(Run(ops[..|ops| - 1]), ops[|ops| - 1])
  }

  predicate NoBlanks(m: Fields) {
    forall k :: k in m ==> m[k] != ""
  }

  predicate Tidy(e: Env) {
    NoBlanks(e.conn) && forall id :: id in e.channels ==> NoBlanks(e.channels[id])
  }

  // Whatever replies are merged, no empty string is ever stored.
  lemma {:induction false} RunIsTidy(ops: seq<Op>)
    ensures Tidy(Run(ops))
  {
    if ops != [] {
      RunIsTidy(ops[..|ops| - 1]);
    }
  }

  // What a merge leaves of a field: the new value, nothing if that is empty, or the old one.
  function Written(other: Fields, k: string, before: Option<string>): Option<string> {
    if k !in other then before else if other[k] == "" then None else Some(other[k])
  }

  function Get(m: Fields, k: string): Option<string> {
    if k in m then Some(m[k]) else None
  }

  // The last value written to a connection field, unless deleted since.
  function ConnectionField(ops: seq<Op>, k: string): Option<string> {
    if ops == [] then None else
    var before := ConnectionField(ops[..|ops| - 1], k);
    if ops[|ops| - 1].MergeConnection? then Written(ops[|ops| - 1].other, k, before) else before
  }

  // The same for a field of a channel, which removing the channel deletes as well.
  function ChannelField(ops: seq<Op>, id: string, k: string): Option<string> {
    if ops == [] then None else
    var before := ChannelField(ops[..|ops| - 1], id, k);
    var op := ops[|ops| - 1];
    if op.MergeChannel? && op.id == id then Written(op.other, k, before)
    else if op.RemoveChannel? && op.id == id then None
    else before
  }

  function Identifiers(ops: seq<Op>): string {
    if ops == [] then ""
    else if ops[|ops| - 1].SetIdentifiers? then ops[|ops| - 1].ids
    else Identifiers(ops[..|ops| - 1])
  }

  lemma MergeField(cur: Fields, other: Fields, k: string)
    ensures Get(Merge(cur, other), k) == Written(other, k, Get(cur, k))
  {
  }

  // Whatever is merged and removed, every field is what was last written to it.
  lemma {:induction false} FieldsAreLastWritten(ops: seq<Op>, id: string, k: string)
    ensures Get(Run(ops).conn, k) == ConnectionField(ops, k)
    ensures Get(Field(Run(ops).channels, id), k) == ChannelField(ops, id, k)
    ensures Run(ops).ids == Identifiers(ops)
  {
    hide Merge;
    if ops != [] {
      var e, op := Run(ops[..|ops| - 1]), ops[|ops| - 1];
      FieldsAreLastWritten(ops[..|ops| - 1], id, k);
      if op.MergeConnection? {
        MergeField(e.conn, op.other, k);
      } else if op.MergeChannel? {
        MergeField(Field(e.channels, op.id), op.other, k);
      }
    }
  }

  // ---------- Snapshots ----------

  datatype CacheEntry = CacheEntry(
    ids: string, subs: map<string, seq<string>>, cstate: Fields, istate: map<string, Fields>, disconnectable: bool)

  // A snapshot lists each stream set in some order.
  ghost predicate Snapshot(s: State, e: CacheEntry) {
    && e.ids == s.env.ids && e.cstate == s.env.conn && e.istate == s.env.channels
    && e.disconnectable == s.disconnectable && e.subs.Keys == s.subs.Keys
    && forall id :: id in e.subs ==> multiset(e.subs[id]) == multiset(s.subs[id])
  }

  // The channel fields once those of the given channels are merged in.
  function MergedChannels(cur: map<string, Fields>, istate: map<string, Fields>, ids: set<string>): map<string, Fields>
    requires ids <= istate.Keys
  {
    map id | id in cur.Keys + ids :: if id in ids then Merge(Field(cur, id), istate[id]) else cur[id]
  }

  lemma NoneMerged(cur: map<string, Fields>, istate: map<string, Fields>)
    ensures MergedChannels(cur, istate, {}) == cur
  {
  }

  lemma OneMoreMerged(cur: map<string, Fields>, istate: map<string, Fields>, ids: set<string>, id: string)
    requires ids <= istate.Keys && id in istate && id !in ids
    ensures var m := MergedChannels(cur, istate, ids);
            MergedChannels(cur, istate, ids + {id}) == m[id := Merge(Field(m, id), istate[id])]
  {
    hide Merge;
  }

  function RestoreSpec(s: State, e: CacheEntry): State {
    State(
      Env(e.ids, Merge(s.env.conn, e.cstate), MergedChannels(s.env.channels, e.istate, e.istate.Keys)),
      map id | id in s.subs.Keys + e.subs.Keys :: if id in e.subs then Elements(e.subs[id]) else s.subs[id],
      s.disconnectable || e.disconnectable)
  }

  // What restoring does to any session, fresh or not: the snapshot's fields win over the
  // session's, its channels' subscriptions replace theirs, and all else is kept.
  lemma RestoredFields(s: State, e: CacheEntry, id: string, k: string)
    ensures var r := RestoreSpec(s, e);
            && r.env.ids == e.ids && r.disconnectable == (s.disconnectable || e.disconnectable)
            && Get(r.env.conn, k) == Written(e.cstate, k, Get(s.env.conn, k))
            && Get(Field(r.env.channels, id), k) ==
               (if id in e.istate then Written(e.istate[id], k, Get(Field(s.env.channels, id), k))
                else Get(Field(s.env.channels, id), k))
            && (id in e.subs ==> id in r.subs && forall x :: x in r.subs[id] <==> x in e.subs[id])
            && (id !in e.subs ==> (id in r.subs <==> id in s.subs) && (id in s.subs ==> r.subs[id] == s.subs[id]))
  {
    hide Merge;
    MergeField(s.env.conn, e.cstate, k);
    if id in e.istate {
      MergeField(Field(s.env.channels, id), e.istate[id], k);
    }
  }

  lemma MergeIntoNothing(m: Fields)
    ensures Merge(map[], m) == m <==> NoBlanks(m)
  {
    if NoBlanks(m) {
      assert Merge(map[], m) == m;
    }
  }

  lemma RestoredSubs(s: State, e: CacheEntry)
    requires Snapshot(s, e)
    ensures RestoreSpec(FRESH, e).subs == s.subs
  {
    forall id | id in e.subs ensures Elements(e.subs[id]) == s.subs[id] {
      assert forall x :: x in e.subs[id] <==> x in multiset(e.subs[id]);
      assert forall x :: x in s.subs[id] <==> x in multiset(s.subs[id]);
    }
  }

  lemma RestoredChannels(e: CacheEntry)
    ensures RestoreSpec(FRESH, e).env.channels == e.istate <==> forall id :: id in e.istate ==> NoBlanks(e.istate[id])
  {
    var r := RestoreSpec(FRESH, e).env.channels;
    forall id | id in e.istate ensures r[id] == Merge(map[], e.istate[id]) && (r[id] == e.istate[id] <==>
        NoBlanks(e.istate[id])) {
      MergeIntoNothing(e.istate[id]);
    }
    if forall id :: id in e.istate ==> NoBlanks(e.istate[id]) {
      assert r.Keys == e.istate.Keys;
      assert r == e.istate;
    }
  }

  // Restoring a snapshot into a fresh session reproduces the session, identifiers, connection
  // and channel state, subscriptions and all, exactly when it stored no empty string.
  lemma RestoreRoundTripIff(s: State, e: CacheEntry)
    requires Snapshot(s, e)
    ensures RestoreSpec(FRESH, e) == s <==> Tidy(s.env)
  {
    hide Merge;
    MergeIntoNothing(e.cstate);
    RestoredSubs(s, e);
    RestoredChannels(e);
  }

  // So it does for every session the server can build.
  lemma ResumedSessionIsTheSame(ops: seq<Op>, subs: Channels, disconnectable: bool, e: CacheEntry)
    requires Snapshot(State(Run(ops), subs, disconnectable), e)
    ensures RestoreSpec(FRESH, e) == State(Run(ops), subs, disconnectable)
  {
    RunIsTidy(ops);
    RestoreRoundTripIff(State(Run(ops), subs, disconnectable), e);
  }

  // ---------- Implementation ----------

  // The loop of both merges, over the keys in arbitrary order.
  method MergeFields(cur: Fields, other: Fields) returns (r: Fields)
    ensures r == Merge(cur, other)
  {
    hide Merge;
    r := cur;
    var todo := other.Keys;
    while todo != {}
      invariant todo <= other.Keys
      invariant forall k :: k in r <==> if k in other && k !in todo then other[k] != "" else k in cur
      invariant forall k :: k in r ==> r[k] == if k in other && k !in todo then other[k] else cur[k]
    {
      var k :| k in todo;
      if other[k] == "" {
        r := r - {k};
      } else {
        r := r[k := other[k]];
      }
      todo := todo - {k};
    }
    assert r == Merge(cur, other);
  }

  class ResumableSession {
    const subscriptions: N.SubscriptionState
    var ids: string
    var conn: Fields
    var channels: map<string, Fields>
    var disconnectable: bool

    ghost function View(): State
      reads this, subscriptions
    {
      State(Env(ids, conn, channels), subscriptions.channels, disconnectable)
    }

    constructor ()
      ensures fresh(subscriptions) && View() == FRESH
    {
      ids, conn, channels, disconnectable := "", map[], map[], false;
      subscriptions := new N.SubscriptionState();
    }

    method MergeConnectionState(other: Fields)
      modifies this`conn
      ensures View().env == Step(old(View().env), MergeConnection(other))
    {
      conn := MergeFields(conn, other);
    }

    method MergeChannelState(id: string, other: Fields)
      modifies this`channels
      ensures View().env == Step(old(View().env), MergeChannel(id, other))
    {
      var cur := if id in channels then channels[id] else map[];
      var merged := MergeFields(cur, other);
      channels := channels[id := merged];
    }

    method RemoveChannelState(id: string)
      modifies this`channels
      ensures View().env == Step(old(View().env), RemoveChannel(id))
    {
      channels := channels - {id};
    }

    method ToCacheEntry() returns (e: CacheEntry)
      ensures Snapshot(View(), e)
    {
      var subs := subscriptions.ToMap();
      e := CacheEntry(ids, subs, conn, channels, disconnectable);
    }

    method RestoreFromCache(e: CacheEntry)
      modifies this, subscriptions
      ensures View() == RestoreSpec(old(View()), e)
    {
      hide Merge;
      disconnectable := disconnectable || e.disconnectable;
      ids := e.ids;
      MergeConnectionState(e.cstate);
      RestoreChannels(e.istate);
      RestoreSubscriptions(e.subs);
    }

    method RestoreChannels(istate: map<string, Fields>)
      modifies this`channels
      ensures channels == MergedChannels(old(channels), istate, istate.Keys)
    {
      hide Merge, MergedChannels;
      var todo := istate.Keys;
      NoneMerged(channels, istate);
      assert istate.Keys - todo == {} && istate.Keys - {} == istate.Keys;
      while todo != {}
        invariant todo <= istate.Keys && channels == MergedChannels(old(channels), istate, istate.Keys - todo)
      {
        var id :| id in todo;
        OneMoreMerged(old(channels), istate, istate.Keys - todo, id);
        MergeChannelState(id, istate[id]);
        assert istate.Keys - todo + {id} == istate.Keys - (todo - {id});
        todo := todo - {id};
      }
    }

    method RestoreSubscriptions(subs: map<string, seq<string>>)
      modifies subscriptions
      ensures subscriptions.channels == map id | id in old(subscriptions.channels).Keys + subs.Keys ::
                if id in subs then Elements(subs[id]) else old(subscriptions.channels)[id]
    {
      var todo := subs.Keys;
      while todo != {}
        invariant todo <= subs.Keys
        invariant subscriptions.channels.Keys == old(subscriptions.channels).Keys + (subs.Keys - todo)
        invariant forall id :: id in subscriptions.channels && (id !in subs || id in todo) ==>
                    subscriptions.channels[id] == old(subscriptions.channels)[id]
        invariant forall id :: id in subs && id !in todo ==> subscriptions.channels[id] == Elements(subs[id])
      {
        var id :| id in todo;
        RestoreChannel(id, subs[id]);
        todo := todo - {id};
      }
    }

    method RestoreChannel(id: string, streams: seq<string>)
      modifies subscriptions
      ensures subscriptions.channels == old(subscriptions.channels)[id := Elements(streams)]
    {
      subscriptions.AddChannel(id);
      assert Elements(streams[..0]) == {};
      for i := 0 to |streams|
        invariant subscriptions.channels == old(subscriptions.channels)[id := Elements(streams[..i])]
      {
        NS.StartOne(subscriptions.channels, id, streams[i]);
        subscriptions.AddChannelStream(id, streams[i]);
        assert Elements(streams[..i + 1]) == Elements(streams[..i]) + {streams[i]};
      }
      assert streams[..|streams|] == streams;
    }
  }
}

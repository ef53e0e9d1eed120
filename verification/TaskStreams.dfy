/**
 The Redis streams that hold a room's Yjs history, one per task, and what an XADD can do to them.
 An append may succeed, fail with no effect, or take effect although its caller sees a failure. A delta whose append was
 reported as failed is appended again, so the stream repeats what it was given: the deltas in order, each at least once,
 its repeats side by side. Appends of the empty delta or the empty key, and all appends to a disabled store, are
 acknowledged without an XADD; the rest are recorded.
 The streams are a value here, for the proofs, and an object updated in place at the end.
 */
module TaskStreams {
  import opened Basics
  import opened Sequences
  import opened SaveQueue

  /** One Yjs update as it travels: a base64 text the server never looks into. */
  datatype Delta = Delta(base64: string)

  /** The empty delta, the empty task key and a disabled store are acknowledged without an XADD. */
  predicate Storable(enabled: bool, taskKey: TaskKey, data: Delta) {
    enabled && taskKey.id != "" && data.base64 != ""
  }

  /** The deltas of one task that an acknowledged append really writes. */
  function Recorded(enabled: bool, taskKey: TaskKey, data: seq<Delta>): seq<Delta> {
    if data == [] then []
    else
      var d := data[|data| - 1];
      Recorded(enabled, taskKey, data[..|data| - 1]) + if Storable(enabled, taskKey, d) then [d] else []
  }

  lemma RecordedNothing(enabled: bool, taskKey: TaskKey, data: seq<Delta>)
    ensures Recorded(enabled, taskKey, data[..0]) == []
  {
  }

  lemma RecordedNext(enabled: bool, taskKey: TaskKey, data: seq<Delta>, d: Delta)
    ensures Recorded(enabled, taskKey, data + [d])
            == Recorded(enabled, taskKey, data) + if Storable(enabled, taskKey, d) then [d] else []
  {
    assert (data + [d])[..|data|] == data;
  }

  /** How often a delta is in what an append writes: as often as it was appended, or never. */
  lemma {:induction false} RecordedCounts(enabled: bool, taskKey: TaskKey, data: seq<Delta>, d: Delta)
    ensures multiset(Recorded(enabled, taskKey, data))[d] == if Storable(enabled, taskKey, d) then multiset(data)[d] else 0
    decreases |data|
  {
    if data != [] {
      var before := data[..|data| - 1];
      RecordedCounts(enabled, taskKey, before, d);
      assert data == before + [data[|data| - 1]];
    }
  }

  lemma {:induction false} RecordedConcat(enabled: bool, taskKey: TaskKey, a: seq<Delta>, b: seq<Delta>)
    ensures Recorded(enabled, taskKey, a + b) == Recorded(enabled, taskKey, a) + Recorded(enabled, taskKey, b)
    decreases |b|
  {
    if b == [] {
      assert a + b == a;
    } else {
      RecordedConcat(enabled, taskKey, a, b[..|b| - 1]);
      assert (a + b)[..|a + b| - 1] == a + b[..|b| - 1];
    }
  }

  /** entries lists rec in order, each element repeated consecutively at least once. */
  ghost predicate Repeats(entries: seq<Delta>, rec: seq<Delta>) {
    exists at: seq<nat> :: IsRepetition(entries, rec, at)
  }

  ghost predicate IsRepetition(entries: seq<Delta>, rec: seq<Delta>, at: seq<nat>) {
    && |at| == |entries|
    && IsStutter(at, |rec|)
    && forall i :: 0 <= i < |at| ==> at[i] < |rec| && entries[i] == rec[at[i]]
  }

  lemma RepeatsNext(entries: seq<Delta>, rec: seq<Delta>, x: Delta)
    requires Repeats(entries, rec)
    ensures Repeats(entries + [x], rec + [x])
    ensures rec != [] && rec[|rec| - 1] == x ==> Repeats(entries + [x], rec)
  {
    var at: seq<nat> :| IsRepetition(entries, rec, at);
    StutterStep(at, |rec|, |rec|);
    assert IsRepetition(entries + [x], rec + [x], at + [|rec|]);
    if rec != [] && rec[|rec| - 1] == x {
      StutterStep(at, |rec|, |rec| - 1);
      assert IsRepetition(entries + [x], rec, at + [|rec| - 1]);
    }
  }

  /** Everything recorded is among the entries, and nothing else is. */
  lemma RepeatsCovers(entries: seq<Delta>, rec: seq<Delta>)
    requires Repeats(entries, rec)
    ensures forall x :: x in entries <==> x in rec
  {
    var at: seq<nat> :| IsRepetition(entries, rec, at);
    StutterCovers(at, |rec|);
    forall x | x in rec ensures x in entries {
      var k :| 0 <= k < |rec| && rec[k] == x;
      assert k in at;
      var i :| 0 <= i < |at| && at[i] == k;
      assert entries[i] == x;
    }
  }

  /** The first p deltas are written, and perhaps the next one, whose append was reported as failed. */
  ghost predicate Logged(enabled: bool, taskKey: TaskKey, accepted: seq<Delta>, p: nat, entries: seq<Delta>) {
    && p <= |accepted|
    && (|| Repeats(entries, Recorded(enabled, taskKey, accepted[..p]))
        || (p < |accepted| && Repeats(entries, Recorded(enabled, taskKey, accepted[..p + 1]))))
  }

  /** One append of the next delta: acknowledged it moves the boundary, otherwise the boundary stays. */
  lemma LoggedAppend(enabled: bool, taskKey: TaskKey, accepted: seq<Delta>, p: nat, entries: seq<Delta>)
    requires Logged(enabled, taskKey, accepted, p, entries) && p < |accepted|
    ensures var d := accepted[p];
            var written := if Storable(enabled, taskKey, d) then entries + [d] else entries;
            && Logged(enabled, taskKey, accepted, p + 1, written)
            && Logged(enabled, taskKey, accepted, p, written)
  {
    var d := accepted[p];
    var rec := Recorded(enabled, taskKey, accepted[..p]);
    assert accepted[..p + 1][..p] == accepted[..p];
    assert accepted[..p + 1] == accepted[..p] + [d];
    if Storable(enabled, taskKey, d) {
      if Repeats(entries, rec) {
        RepeatsNext(entries, rec, d);
      } else {
        RepeatsNext(entries, rec + [d], d);
      }
    } else {
      assert rec + [] == rec;
    }
  }

  lemma LoggedExtend(enabled: bool, taskKey: TaskKey, accepted: seq<Delta>, p: nat, entries: seq<Delta>, more: seq<Delta>)
    requires Logged(enabled, taskKey, accepted, p, entries)
    ensures Logged(enabled, taskKey, accepted + more, p, entries)
  {
    assert (accepted + more)[..p] == accepted[..p];
    if p < |accepted| {
      assert (accepted + more)[..p + 1] == accepted[..p + 1];
    }
  }

  /** What must hold of one task: the queue is the rest of what was accepted, and the stream grew by what came before. */
  ghost predicate Kept(enabled: bool, taskKey: TaskKey, accepted: seq<Delta>, queued: seq<Delta>, grown: seq<Delta>) {
    && |queued| <= |accepted|
    && queued == accepted[|accepted| - |queued|..]
    && Logged(enabled, taskKey, accepted, |accepted| - |queued|, grown)
  }

  lemma KeptInitially(enabled: bool, taskKey: TaskKey)
    ensures Kept(enabled, taskKey, [], [], [])
  {
    assert IsRepetition([], [], []);
    assert Recorded(enabled, taskKey, [][..0]) == [];
  }

  lemma KeptEnqueue(enabled: bool, taskKey: TaskKey, accepted: seq<Delta>, queued: seq<Delta>, grown: seq<Delta>, d: Delta)
    requires Kept(enabled, taskKey, accepted, queued, grown)
    ensures Kept(enabled, taskKey, accepted + [d], queued + [d], grown)
  {
    LoggedExtend(enabled, taskKey, accepted, |accepted| - |queued|, grown, [d]);
  }

  lemma KeptSplit(enabled: bool, taskKey: TaskKey, accepted: seq<Delta>, queued: seq<Delta>, grown: seq<Delta>, n: nat) returns (m: nat)
    requires Kept(enabled, taskKey, accepted, queued, grown) && n <= |queued|
    ensures m == |accepted| - |queued| && queued == accepted[m..] && queued[..n] == accepted[m..m + n]
    ensures Logged(enabled, taskKey, accepted, m, grown)
  {
    hide Logged;
    m := |accepted| - |queued|;
  }

  lemma KeptCommit(enabled: bool, taskKey: TaskKey, accepted: seq<Delta>, queued: seq<Delta>, grown: seq<Delta>, n: nat)
    requires |queued| <= |accepted| && queued == accepted[|accepted| - |queued|..]
    requires n <= |queued| && Logged(enabled, taskKey, accepted, |accepted| - |queued| + n, grown)
    ensures Kept(enabled, taskKey, accepted, queued[n..], grown)
  {
  }

  /** Between them, stream and queue hold every accepted delta that an XADD records. */
  lemma KeptLosesNothing(enabled: bool, taskKey: TaskKey, accepted: seq<Delta>, queued: seq<Delta>, grown: seq<Delta>)
    requires Kept(enabled, taskKey, accepted, queued, grown)
    ensures forall d :: d in accepted && Storable(enabled, taskKey, d) ==> d in queued || d in grown
  {
    var m := |accepted| - |queued|;
    var p := if Repeats(grown, Recorded(enabled, taskKey, accepted[..m])) then m else m + 1;
    RepeatsCovers(grown, Recorded(enabled, taskKey, accepted[..p]));
    RecordedMembers(enabled, taskKey, accepted[..p]);
    assert accepted == accepted[..m] + queued;
    forall d | d in accepted[..m] ensures d in accepted[..p] {
      var i :| 0 <= i < m && accepted[i] == d;
      assert accepted[..p][i] == d;
    }
  }

  lemma {:induction false} RecordedMembers(enabled: bool, taskKey: TaskKey, data: seq<Delta>)
    ensures forall d :: d in Recorded(enabled, taskKey, data) <==> d in data && Storable(enabled, taskKey, d)
    decreases |data|
  {
    if data != [] {
      RecordedMembers(enabled, taskKey, data[..|data| - 1]);
      assert data == data[..|data| - 1] + [data[|data| - 1]];
    }
  }

  /** The streams of one room as the save queue sees them. */
  datatype Streams = Streams(
    enabled: bool,
    entries: map<TaskKey, seq<Delta>>,
    replies: seq<Reply>)  // what the coming XADDs will do; once it is used up they all succeed
  {
    function Entries(k: TaskKey): seq<Delta> {
      if k in entries then entries[k] else []
    }

    function Append(k: TaskKey, d: Delta): (Streams, bool) {
      if !Storable(enabled, k, d) then (this, true)
      else
        var reply := if replies == [] then Acked else replies[0];
        var s := this.(replies := if replies == [] then [] else replies[1..]);
        (if reply == Refused then s else s.(entries := entries[k := Entries(k) + [d]]), reply == Acked)
    }

    /** Appends the batch until one append is reported as failed; the count is how many were acknowledged. */
    function AppendAll(k: TaskKey, batch: seq<Delta>): (Streams, nat)
      decreases |batch|
    {
      if batch == [] then (this, 0)
      else
        var (s, ok) := Append(k, batch[0]);
        if !ok then (s, 0)
        else
          var (t, n) := s.AppendAll(k, batch[1..]);
          (t, n + 1)
    }
  }

  lemma AppendKeeps(st: Streams, k: TaskKey, d: Delta, accepted: seq<Delta>, p: nat, was: seq<Delta>) returns (x: seq<Delta>)
    requires p < |accepted| && accepted[p] == d && Logged(st.enabled, k, accepted, p, was)
    ensures var (s, ok) := st.Append(k, d);
            && s.enabled == st.enabled
            && s.Entries(k) == st.Entries(k) + x
            && (forall j :: j != k ==> s.Entries(j) == st.Entries(j))
            && Logged(st.enabled, k, accepted, if ok then p + 1 else p, was + x)
            && (st.replies == [] ==> s.replies == [] && ok && x == if Storable(st.enabled, k, d) then [d] else [])
  {
    hide Logged, Recorded, Repeats;
    LoggedAppend(st.enabled, k, accepted, p, was);
    assert was + [] == was;
    x := if Storable(st.enabled, k, d) && (st.replies == [] || st.replies[0] != Refused) then [d] else [];
  }

  /** However the appends go, the stream grows by some w that keeps the record, one delta per acknowledgement. */
  lemma {:induction false} AppendAllKeeps(st: Streams, k: TaskKey, batch: seq<Delta>,
                                          accepted: seq<Delta>, p: nat, was: seq<Delta>) returns (w: seq<Delta>)
    requires p + |batch| <= |accepted| && batch == accepted[p..p + |batch|]
    requires Logged(st.enabled, k, accepted, p, was)
    ensures var (t, n) := st.AppendAll(k, batch);
            && n <= |batch| && t.enabled == st.enabled
            && t.Entries(k) == st.Entries(k) + w
            && (forall j :: j != k ==> t.Entries(j) == st.Entries(j))
            && Logged(st.enabled, k, accepted, p + n, was + w)
            && (st.replies == [] ==> t.replies == [] && n == |batch| && w == Recorded(st.enabled, k, batch))
    decreases |batch|
  {
    hide Logged, Streams.Append, Storable;
    if batch == [] {
      w := [];
      assert was + w == was;
    } else {
      hide Recorded;
      var d := batch[0];
      var (s, ok) := st.Append(k, d);
      var x := AppendKeeps(st, k, d, accepted, p, was);
      if !ok {
        w := x;
      } else {
        var (t, n) := s.AppendAll(k, batch[1..]);
        assert st.AppendAll(k, batch) == (t, n + 1);
        hide Streams.AppendAll, Streams.Entries;
        var v := AppendAllKeeps(s, k, batch[1..], accepted, p + 1, was + x);
        w := x + v;
        Assoc(was, x, v);
        Assoc(st.Entries(k), x, v);
        RecordedFirst(st.enabled, k, batch);
      }
    }
  }

  lemma RecordedFirst(enabled: bool, taskKey: TaskKey, data: seq<Delta>)
    requires data != []
    ensures Recorded(enabled, taskKey, data)
            == (if Storable(enabled, taskKey, data[0]) then [data[0]] else []) + Recorded(enabled, taskKey, data[1..])
  {
    RecordedConcat(enabled, taskKey, [data[0]], data[1..]);
    RecordedNext(enabled, taskKey, [], data[0]);
    assert [] + [data[0]] == [data[0]] && data == [data[0]] + data[1..];
  }

  class YjsDocStore {
    const enabled: bool
    var streams: map<TaskKey, seq<Delta>>
    var replies: seq<Reply>

    constructor (enabled: bool, streams: map<TaskKey, seq<Delta>>, replies: seq<Reply>)
      ensures View() == Streams(enabled, streams, replies)
    {
      this.enabled, this.streams, this.replies := enabled, streams, replies;
    }

    function View(): Streams
      reads this
    {
      Streams(enabled, streams, replies)
    }

    method AppendTaskUpdate(taskKey: TaskKey, data: Delta) returns (ok: bool)
      modifies this
      ensures (View(), ok) == old(View()).Append(taskKey, data)
    {
      if !enabled || taskKey.id == "" || data.base64 == "" {
        return true;
      }
      var reply := Acked;
      if replies != [] {
        reply, replies := replies[0], replies[1..];
      }
      if reply != Refused {
        streams := streams[taskKey := (if taskKey in streams then streams[taskKey] else []) + [data]];
      }
      ok := reply == Acked;
    }
  }
}

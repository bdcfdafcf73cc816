/** Rebuilding the facts of every tracked turn. Gates written before they carried
    their owner are bound, on reading, to the session their artifact names. */
module OwnerBackfill {
  import opened Wrappers
  import opened RuntimeTypes
  import opened EventReplay

  /** An artifact of `.viden/agents`, in the order the reader visits them, with
      its text if it can be read as text. */
  datatype Artifact = Artifact(name: string, content: Option<string>)

  const SUFFIX := ".runtime-events.jsonl"

  predicate IsRuntimeArtifact(name: string) {
    |SUFFIX| <= |name| && name[|name| - |SUFFIX|..] == SUFFIX
  }

  /** The session an artifact is named after; follow-up turns name none. */
  function ArtifactSession(name: string): Option<string>
    requires IsRuntimeArtifact(name)
  {
    var stem := name[..|name| - |SUFFIX|];
    if "agent-session_" <= stem then Some(stem) else None
  }

  /** An event with the session its artifact is named after. */
  datatype Row = Row(event: Event, session: Option<string>)

  predicate IsGate(event: Event, gateId: string) {
    event.fact.MergeGateUpdated? && event.fact.gate.gateId == gateId
  }

  function Session(event: Event): Option<string>
    requires event.fact.MergeGateUpdated?
  {
    event.fact.gate.owner.sessionId
  }

  function Bind(event: Event, session: string): Event
    requires event.fact.MergeGateUpdated?
  {
    event.(fact := MergeGateUpdated(event.fact.gate.(owner := event.fact.gate.owner.(sessionId := Some(session)))))
  }

  // ---- The reference: bindings read off the replayed events ----

  /** The session the latest bound event of this gate carries. */
  function LastBinding(events: seq<Event>, gateId: string): Option<string> {
    if events == [] then None
    else
      var last := events[|events| - 1];
      if IsGate(last, gateId) && Session(last).Some? then Session(last)
      else LastBinding(events[..|events| - 1], gateId)
  }

  function OrElse<T>(first: Option<T>, second: Option<T>): Option<T> {
    if first.Some? then first else second
  }

  /** A gate that names no session takes the latest binding of its gate, or
      failing that the session of its artifact. */
  function Rebound(before: seq<Event>, row: Row): Event {
    var event := row.event;
    if !event.fact.MergeGateUpdated? || Session(event).Some? then event
    else match OrElse(LastBinding(before, event.fact.gate.gateId), row.session)
      case Some(session) => Bind(event, session)
      case None => event
  }

  function Replay(rows: seq<Row>): (events: seq<Event>)
    ensures |events| == |rows|
  {
    if rows == [] then [] else
      var before := Replay(rows[..|rows| - 1]);
      before + [Rebound(before, rows[|rows| - 1])]
  }

  function RowsOf(events: seq<Event>, session: Option<string>): (rows: seq<Row>)
    ensures |rows| == |events|
  {
    seq(|events|, i requires 0 <= i < |events| => Row(events[i], session))
  }

  /** The rows of one artifact. */
  function RowsIn(codec: Codec, artifact: Artifact): seq<Row> {
    if IsRuntimeArtifact(artifact.name) then RowsOf(ReadBack(codec, artifact.content), ArtifactSession(artifact.name))
    else []
  }

  function AllRows(codec: Codec, artifacts: seq<Artifact>): seq<Row> {
    if artifacts == [] then []
    else
      AllRows(codec, artifacts[..|artifacts| - 1]) + RowsIn(codec, artifacts[|artifacts| - 1])
  }

  // ---- The one-pass reader ----

  /** The bindings a map holds are the ones the events show. */
  ghost predicate Remembers(owners: map<string, string>, events: seq<Event>) {
    forall gateId ::
      LastBinding(events, gateId) == if gateId in owners then Some(owners[gateId]) else None
  }

  method BindEvent(row: Row, owners: map<string, string>, ghost before: seq<Event>)
    returns (event: Event, bound: map<string, string>)
    requires Remembers(owners, before)
    ensures event == Rebound(before, row)
    ensures Remembers(bound, before + [event])
  {
    event, bound := row.event, owners;
    if event.fact.MergeGateUpdated? {
      var gate := event.fact.gate;
      match gate.owner.sessionId {
        case Some(session) =>
          bound := owners[gate.gateId := session];
        case None =>
          var found := OrElse(if gate.gateId in owners then Some(owners[gate.gateId]) else None, row.session);
          if found.Some? {
            bound := owners[gate.gateId := found.value];
            event := Bind(event, found.value);
          }
      }
    }
    assert (before + [event])[..|before|] == before;
  }

  lemma ReplayStep(rows: seq<Row>, row: Row)
    ensures Replay(rows + [row]) == Replay(rows) + [Rebound(Replay(rows), row)]
  {
    assert (rows + [row])[..|rows|] == rows;
  }

  lemma NoRows(codec: Codec, artifacts: seq<Artifact>)
    ensures AllRows(codec, artifacts[..0]) == []
  {
  }

  lemma AllRowsNext(codec: Codec, artifacts: seq<Artifact>, i: nat)
    requires i < |artifacts|
    ensures AllRows(codec, artifacts[..i + 1]) == AllRows(codec, artifacts[..i]) + RowsIn(codec, artifacts[i])
  {
    hide RowsIn;
    assert artifacts[..i + 1][..i] == artifacts[..i];
  }

  method TrackedAgentJobRuntimeEvents(codec: Codec, artifacts: seq<Artifact>) returns (events: seq<Event>)
    ensures events == Replay(AllRows(codec, artifacts))
  {
    hide LastBinding, Rebound, Replay, Remembers, AllRows, ReadBack, ArtifactSession;
    var owners: map<string, string> := map[];
    events := [];
    NothingBound();
    NoRows(codec, artifacts);
    ghost var rows: seq<Row> := [];
    for i := 0 to |artifacts|
      invariant rows == AllRows(codec, artifacts[..i])
      invariant events == Replay(rows) && Remembers(owners, events)
    {
      var artifact := artifacts[i];
      AllRowsNext(codec, artifacts, i);
      if IsRuntimeArtifact(artifact.name) {
        var session := ArtifactSession(artifact.name);
        var read := ReadAcpRuntimeEvents(codec, artifact.content);
        ghost var earlier, added := rows, RowsOf(read, session);
        for j := 0 to |read|
          invariant rows == earlier + added[..j]
          invariant events == Replay(rows) && Remembers(owners, events)
        {
          ReplayStep(rows, Row(read[j], session));
          var event, bound := BindEvent(Row(read[j], session), owners, events);
          rows := rows + [Row(read[j], session)];
          events, owners := events + [event], bound;
        }
        assert added[..|read|] == added;
      } else {
        assert rows + [] == rows;
      }
    }
    assert artifacts[..|artifacts|] == artifacts;
  }

  lemma NothingBound()
    ensures Replay([]) == [] && Remembers(map[], [])
  {
  }

  // ---- What the backfill promises ----

  /** The same event, except that a missing session may be filled in. */
  predicate OnlyBinds(before: Event, after: Event) {
    || after == before
    || (before.fact.MergeGateUpdated? && Session(before).None? && after.fact.MergeGateUpdated?
        && Session(after).Some? && after == Bind(before, Session(after).value))
  }

  lemma {:induction false} ReplayAt(rows: seq<Row>, i: nat)
    requires i < |rows|
    ensures Replay(rows)[..i] == Replay(rows[..i])
    ensures Replay(rows)[i] == Rebound(Replay(rows)[..i], rows[i])
  {
    var n := |rows| - 1;
    if i < n {
      ReplayAt(rows[..n], i);
      assert rows[..n][..i] == rows[..i];
      assert Replay(rows)[..i] == Replay(rows[..n])[..i];
    }
  }

  /** Replaying keeps every event in its place, changes nothing but a missing
      gate session, and never overwrites a published one. */
  lemma {:induction false} ReplayOnlyBinds(rows: seq<Row>, i: nat)
    requires i < |rows|
    ensures OnlyBinds(rows[i].event, Replay(rows)[i])
  {
    ReplayAt(rows, i);
  }

  /** `k` is the latest event before `i` that binds this gate. */
  predicate LastBound(events: seq<Event>, i: nat, gateId: string, k: nat)
    requires i <= |events|
  {
    && k < i && IsGate(events[k], gateId) && Session(events[k]).Some?
    && forall m | k < m < i :: IsGate(events[m], gateId) ==> Session(events[m]).None?
  }

  predicate Unbound(events: seq<Event>, i: nat, gateId: string)
    requires i <= |events|
  {
    forall m | 0 <= m < i :: IsGate(events[m], gateId) ==> Session(events[m]).None?
  }

  lemma {:induction false} LastBindingIs(events: seq<Event>, gateId: string) returns (k: nat)
    ensures match LastBinding(events, gateId)
            case Some(session) => LastBound(events, |events|, gateId, k) && Session(events[k]) == Some(session)
            case None => Unbound(events, |events|, gateId)
  {
    k := 0;
    if events != [] {
      var n := |events| - 1;
      if IsGate(events[n], gateId) && Session(events[n]).Some? {
        k := n;
      } else {
        k := LastBindingIs(events[..n], gateId);
        assert forall m | 0 <= m < n :: events[..n][m] == events[m];
      }
    }
  }

  /** A gate event that named no session ends up with the one of the latest
      bound event of its gate before it; with none before it, with the session
      of its artifact; and stays unbound only when there is neither. */
  lemma {:induction false} MissingSessionIs(rows: seq<Row>, i: nat)
    requires i < |rows| && rows[i].event.fact.MergeGateUpdated? && Session(rows[i].event).None?
    ensures var events, gateId := Replay(rows), rows[i].event.fact.gate.gateId;
            && IsGate(events[i], gateId)
            && (forall k: nat | LastBound(events, i, gateId, k) :: Session(events[i]) == Session(events[k]))
            && (Unbound(events, i, gateId) ==> Session(events[i]) == rows[i].session)
            && (Unbound(events, i, gateId) || exists k: nat :: LastBound(events, i, gateId, k))
  {
    hide Replay, LastBinding;
    var events, gateId := Replay(rows), rows[i].event.fact.gate.gateId;
    ReplayAt(rows, i);
    var k := LastBindingIs(events[..i], gateId);
    assert forall m | 0 <= m < i :: events[..i][m] == events[m];
    if LastBinding(events[..i], gateId).Some? {
      assert LastBound(events, i, gateId, k);
      forall m: nat | LastBound(events, i, gateId, m)
        ensures Session(events[i]) == Session(events[m])
      {
        assert m == k;
      }
    }
  }

  /** Once a gate is bound it stays bound. */
  lemma {:induction false} BoundStaysBound(rows: seq<Row>, i: nat, j: nat, gateId: string)
    requires i < j < |rows|
    requires IsGate(Replay(rows)[i], gateId) && Session(Replay(rows)[i]).Some?
    requires IsGate(Replay(rows)[j], gateId)
    ensures Session(Replay(rows)[j]).Some?
  {
    hide Replay, LastBound;
    ReplayAt(rows, j);
    if Session(rows[j].event).None? {
      MissingSessionIs(rows, j);
      if k: nat :| LastBound(Replay(rows), j, gateId, k) {
        BoundAt(Replay(rows), j, gateId, k);
      }
    }
  }

  lemma BoundAt(events: seq<Event>, i: nat, gateId: string, k: nat)
    requires i <= |events| && LastBound(events, i, gateId, k)
    ensures Session(events[k]).Some?
  {
  }

  /** A gate whose facts never named a session is never split over two. */
  lemma {:induction false} LegacyGateHasOneSession(rows: seq<Row>, i: nat, j: nat, gateId: string)
    requires forall m | 0 <= m < |rows| :: IsGate(rows[m].event, gateId) ==> Session(rows[m].event).None?
    requires i < j < |rows| && IsGate(Replay(rows)[i], gateId) && IsGate(Replay(rows)[j], gateId)
    requires Session(Replay(rows)[i]).Some?
    ensures Session(Replay(rows)[j]) == Session(Replay(rows)[i])
    decreases j
  {
    hide Replay, Rebound;
    var events := Replay(rows);
    ReplayOnlyBinds(rows, j);
    MissingSessionIs(rows, j);
    assert !Unbound(events, j, gateId);
    var k: nat :| LastBound(events, j, gateId, k);
    if i < k {
      LegacyGateHasOneSession(rows, i, k, gateId);
    }
  }

  // ---- The same, on artifacts ----

  /** The events the reader takes from an artifact. */
  function Shown(codec: Codec, artifact: Artifact): seq<Event> {
    var name, suffix := artifact.name, ".runtime-events.jsonl";
    if |suffix| <= |name| && name[|name| - |suffix|..] == suffix then ReadBack(codec, artifact.content) else []
  }

  lemma AllRowsStep(codec: Codec, artifacts: seq<Artifact>, i: nat)
    requires i < |artifacts|
    ensures var rows, next := AllRows(codec, artifacts[..i]), AllRows(codec, artifacts[..i + 1]);
            && rows <= next && |next| == |rows| + |Shown(codec, artifacts[i])|
            && forall j | 0 <= j < |Shown(codec, artifacts[i])| ::
                 && next[|rows| + j].event == Shown(codec, artifacts[i])[j]
                 && next[|rows| + j].session == ArtifactSession(artifacts[i].name)
    ensures AllRows(codec, artifacts[..0]) == []
  {
    hide AllRows, Shown, RowsIn, ArtifactSession;
    NoRows(codec, artifacts);
    RowsShown(codec, artifacts[i]);
    AllRowsNext(codec, artifacts, i);
  }

  lemma RowsShown(codec: Codec, artifact: Artifact)
    ensures |RowsIn(codec, artifact)| == |Shown(codec, artifact)|
    ensures forall j | 0 <= j < |Shown(codec, artifact)| ::
              && IsRuntimeArtifact(artifact.name)
              && RowsIn(codec, artifact)[j] == Row(Shown(codec, artifact)[j], ArtifactSession(artifact.name))
  {
    hide ReadBack, ArtifactSession;
  }

  lemma {:induction false} AllRowsPrefix(codec: Codec, artifacts: seq<Artifact>, i: nat)
    requires i <= |artifacts|
    ensures AllRows(codec, artifacts[..i]) <= AllRows(codec, artifacts)
    decreases |artifacts| - i
  {
    hide AllRows;
    if i < |artifacts| {
      AllRowsStep(codec, artifacts, i);
      AllRowsPrefix(codec, artifacts, i + 1);
    } else {
      assert artifacts[..i] == artifacts;
    }
  }

  /** Event `j` of artifact `i` comes after all of the artifacts before it, and
      nothing of it changes but a missing gate session. */
  lemma EventsComeInArtifactOrder(codec: Codec, artifacts: seq<Artifact>, i: nat, j: nat)
    requires i < |artifacts| && j < |Shown(codec, artifacts[i])|
    ensures var events, at := Replay(AllRows(codec, artifacts)), |Replay(AllRows(codec, artifacts[..i]))| + j;
            at < |events| && OnlyBinds(Shown(codec, artifacts[i])[j], events[at])
    ensures |Replay(AllRows(codec, artifacts[..i + 1]))| ==
            |Replay(AllRows(codec, artifacts[..i]))| + |Shown(codec, artifacts[i])|
    ensures Replay(AllRows(codec, artifacts[..0])) == []
  {
    hide AllRows, Replay, Shown, ArtifactSession, OnlyBinds;
    AllRowsStep(codec, artifacts, i);
    AllRowsPrefix(codec, artifacts, i + 1);
    NothingBound();
    var rows := AllRows(codec, artifacts);
    ReplayOnlyBinds(rows, |AllRows(codec, artifacts[..i])| + j);
  }

  /** Where a row comes from. */
  lemma {:induction false} RowOrigin(codec: Codec, artifacts: seq<Artifact>, m: nat) returns (i: nat, j: nat)
    requires m < |AllRows(codec, artifacts)|
    ensures i < |artifacts| && j < |Shown(codec, artifacts[i])|
    ensures m == |AllRows(codec, artifacts[..i])| + j
    ensures AllRows(codec, artifacts)[m].event == Shown(codec, artifacts[i])[j]
    ensures AllRows(codec, artifacts)[m].session == ArtifactSession(artifacts[i].name)
  {
    hide Shown;
    var n := |artifacts| - 1;
    AllRowsStep(codec, artifacts, n);
    assert artifacts[..n + 1] == artifacts;
    if m < |AllRows(codec, artifacts[..n])| {
      i, j := RowOrigin(codec, artifacts[..n], m);
      assert artifacts[..n][..i] == artifacts[..i];
    } else {
      i, j := n, m - |AllRows(codec, artifacts[..n])|;
    }
  }

  lemma SessionNamed(x: string)
    ensures IsRuntimeArtifact("agent-session_" + x + ".runtime-events.jsonl")
    ensures ArtifactSession("agent-session_" + x + ".runtime-events.jsonl") == Some("agent-session_" + x)
  {
    var name := "agent-session_" + x + ".runtime-events.jsonl";
    assert name[..|name| - |SUFFIX|] == "agent-session_" + x;
    assert name[|name| - |SUFFIX|..] == SUFFIX;
  }

  /** A gate written before gates carried their owner, whose first fact is in
      the artifact of a session, belongs to that session in every turn. */
  lemma {:induction false} LegacyGateJoinsItsSession(codec: Codec, artifacts: seq<Artifact>, i: nat, x: string,
                                                     gateId: string, m: nat)
    requires i < |artifacts| && artifacts[i].name == "agent-session_" + x + ".runtime-events.jsonl"
    requires forall k, event | 0 <= k < |artifacts| && event in Shown(codec, artifacts[k]) && IsGate(event, gateId) ::
               Session(event) == None && i <= k
    requires exists event :: event in Shown(codec, artifacts[i]) && IsGate(event, gateId)
    requires var events := Replay(AllRows(codec, artifacts)); m < |events| && IsGate(events[m], gateId)
    ensures Session(Replay(AllRows(codec, artifacts))[m]) == Some("agent-session_" + x)
    decreases m
  {
    hide AllRows, Replay, Shown, ArtifactSession, Unbound, LastBound;
    var rows := AllRows(codec, artifacts);
    var events := Replay(rows);
    ReplayOnlyBinds(rows, m);
    var k, j := RowOrigin(codec, artifacts, m);
    MissingSessionIs(rows, m);
    if before: nat :| LastBound(events, m, gateId, before) {
      LastBoundIs(events, m, gateId, before);
      LegacyGateJoinsItsSession(codec, artifacts, i, x, gateId, before);
    } else {
      forall n | 0 <= n < m
        ensures !IsGate(rows[n].event, gateId)
      {
        ReplayOnlyBinds(rows, n);
        if IsGate(events[n], gateId) {
          LegacyGateJoinsItsSession(codec, artifacts, i, x, gateId, n);
          UnboundAt(events, m, gateId, n);
        }
      }
      var event :| event in Shown(codec, artifacts[i]) && IsGate(event, gateId);
      var at: nat :| at < |Shown(codec, artifacts[i])| && Shown(codec, artifacts[i])[at] == event;
      FirstFactsArtifact(codec, artifacts, i, at, gateId, m, k, j);
      SessionNamed(x);
    }
  }

  lemma LastBoundIs(events: seq<Event>, i: nat, gateId: string, k: nat)
    requires i <= |events| && LastBound(events, i, gateId, k)
    ensures k < i && IsGate(events[k], gateId)
  {
  }

  lemma UnboundAt(events: seq<Event>, i: nat, gateId: string, k: nat)
    requires k < i <= |events| && Unbound(events, i, gateId) && IsGate(events[k], gateId)
    ensures Session(events[k]) == None
  {
  }

  /** The first fact of a gate is in the first artifact that shows the gate. */
  lemma FirstFactsArtifact(codec: Codec, artifacts: seq<Artifact>, i: nat, at: nat, gateId: string, m: nat, k: nat,
                           j: nat)
    requires i <= k < |artifacts| && m == |AllRows(codec, artifacts[..k])| + j
    requires at < |Shown(codec, artifacts[i])| && IsGate(Shown(codec, artifacts[i])[at], gateId)
    requires m < |AllRows(codec, artifacts)|
    requires forall n | 0 <= n < m :: !IsGate(AllRows(codec, artifacts)[n].event, gateId)
    ensures k == i
  {
    hide AllRows, Shown, ArtifactSession;
    RowAt(codec, artifacts, i, at);
    if i < k {
      RowsBefore(codec, artifacts, i, k);
    }
  }

  lemma RowAt(codec: Codec, artifacts: seq<Artifact>, i: nat, j: nat)
    requires i < |artifacts| && j < |Shown(codec, artifacts[i])|
    ensures var rows, at := AllRows(codec, artifacts), |AllRows(codec, artifacts[..i])| + j;
            at < |rows| && rows[at].event == Shown(codec, artifacts[i])[j]
  {
    hide AllRows, Shown, ArtifactSession;
    AllRowsStep(codec, artifacts, i);
    AllRowsPrefix(codec, artifacts, i + 1);
  }

  lemma RowsBefore(codec: Codec, artifacts: seq<Artifact>, i: nat, k: nat)
    requires i < k <= |artifacts|
    ensures |AllRows(codec, artifacts[..i])| + |Shown(codec, artifacts[i])| <= |AllRows(codec, artifacts[..k])|
  {
    hide AllRows, Shown, ArtifactSession;
    AllRowsStep(codec, artifacts, i);
    AllRowsPrefix(codec, artifacts[..k], i + 1);
    assert artifacts[..k][..i + 1] == artifacts[..i + 1];
  }

  /** The rows of events already replayed. */
  function Rebased(rows: seq<Row>, events: seq<Event>): (again: seq<Row>)
    requires |rows| == |events|
    ensures |again| == |rows|
  {
    seq(|rows|, i requires 0 <= i < |rows| => Row(events[i], rows[i].session))
  }

  /** A second backfill finds nothing to do. */
  lemma {:induction false} BackfillIsIdempotent(rows: seq<Row>)
    ensures Replay(Rebased(rows, Replay(rows))) == Replay(rows)
  {
    hide Rebound;
    if rows != [] {
      var n := |rows| - 1;
      var events, again := Replay(rows), Rebased(rows, Replay(rows));
      BackfillIsIdempotent(rows[..n]);
      assert again[..n] == Rebased(rows[..n], Replay(rows[..n]));
      ReboundAgain(events[..n], rows[n]);
    }
  }

  lemma ReboundAgain(before: seq<Event>, row: Row)
    ensures Rebound(before, Row(Rebound(before, row), row.session)) == Rebound(before, row)
  {
  }
}

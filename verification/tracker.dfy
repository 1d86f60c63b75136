/** The in-memory status table: job id to record. Events are tagged with the
    id of the job they belong to. The logger and the progress hook check that
    the id is present and do nothing otherwise; the post-processor hook's
    started/finished branches and the worker's own steps index the table
    without checking, which raises KeyError for an unknown id. That outcome
    is `Missing`: it ends that job's worker and leaves the table untouched,
    while the other jobs' threads carry on. */
module Tracker {
  import opened Job

  type JobId = string
  type Table = map<JobId, Record>

  datatype Event = Event(id: JobId, body: JobEvent)

  datatype Outcome = Applied(table: Table) | Missing(id: JobId)

  /** The event reads the record without first checking that it exists. */
  function Unguarded(e: JobEvent): (b: bool)
    ensures b <==> !FromEngine(e) || e.PostStarted? || e.PostFinished?
    ensures (e.LogDebug? || e.LogInfo? || e.LogWarning? || e.LogError?) ==> !b
    ensures (e.HookDownloading? || e.HookFinished? || e.HookError?) ==> !b
  {
    e.PostStarted? || e.PostFinished? || e.WorkerSetup? || e.WorkerCompleted? || e.WorkerRaised?
  }

  /** The /status lookup. */
  datatype StatusReply = NotFound | Found(record: Record)

  function GetStatus(t: Table, id: JobId): (reply: StatusReply)
    ensures reply.NotFound? <==> id !in t
    ensures reply.Found? ==> id in t && reply.record == t[id]
  {
    if id in t then Found(t[id]) else NotFound
  }

  /** One event applied to the table. */
  function Step(t: Table, ev: Event): (o: Outcome)
    ensures o.Missing? <==> ev.id !in t && Unguarded(ev.body)
    ensures o.Missing? ==> o.id == ev.id
    ensures o.Applied? ==> o.table.Keys == t.Keys
    ensures o.Applied? ==> forall k :: k in t && k != ev.id ==> o.table[k] == t[k]
    ensures o.Applied? && ev.id in t ==> o.table[ev.id] == Apply(t[ev.id], ev.body)
  {
    if ev.id in t then Applied(t[ev.id := Apply(t[ev.id], ev.body)])
    else if Unguarded(ev.body) then Missing(ev.id)
    else Applied(t)
  }

  /** The table after one event: the event's own record changes when its id
      is known; an unknown id, whether it raises or not, changes nothing. */
  function Next(t: Table, ev: Event): (u: Table)
    ensures u.Keys == t.Keys
    ensures ev.id !in t ==> u == t
    ensures forall k :: k in t && k != ev.id ==> u[k] == t[k]
    ensures ev.id in t ==> u[ev.id] == Apply(t[ev.id], ev.body)
  {
    match Step(t, ev)
    case Applied(u) => u
    case Missing(_) => t
  }

  /** The table after a trace, and the ids whose events raised KeyError. */
  datatype TraceResult = TraceResult(table: Table, crashed: set<JobId>)

  /** Events in order. A KeyError ends only the thread that raised it: the
      event changes nothing, its id is recorded, and the trace goes on. */
  function RunTrace(t: Table, evs: seq<Event>): (o: TraceResult)
    ensures o.table.Keys == t.Keys
    ensures forall x :: x in o.crashed ==> x !in t
    ensures forall i :: 0 <= i < |evs| && evs[i].id !in t && Unguarded(evs[i].body) ==> evs[i].id in o.crashed
    ensures forall x :: x in o.crashed ==> exists i :: 0 <= i < |evs| && evs[i].id == x && Unguarded(evs[i].body)
    decreases |evs|
  {
    if evs == [] then TraceResult(t, {})
    else
      var rest := RunTrace(Next(t, evs[0]), evs[1..]);
      if Step(t, evs[0]).Missing? then TraceResult(rest.table, rest.crashed + {evs[0].id})
      else rest
  }

  /** The events of one job, in order. */
  function Project(evs: seq<Event>, id: JobId): (es: seq<JobEvent>)
    ensures |es| <= |evs|
    ensures (forall i :: 0 <= i < |evs| ==> evs[i].id != id) ==> es == []
    ensures forall j :: 0 <= j < |es| ==> exists i :: 0 <= i < |evs| && evs[i].id == id && evs[i].body == es[j]
    ensures (forall i :: 0 <= i < |evs| ==> evs[i].id == id) ==>
              es == seq(|evs|, i requires 0 <= i < |evs| => evs[i].body)
    decreases |evs|
  {
    if evs == [] then []
    else (if evs[0].id == id then [evs[0].body] else []) + Project(evs[1..], id)
  }

  /** Logger and progress-hook events for an id the table does not hold leave
      the whole table unchanged; the other record-touching events raise. */
  lemma UnknownIdEffects(t: Table, id: JobId, e: JobEvent)
    requires id !in t
    ensures (e.LogDebug? || e.LogInfo? || e.LogWarning? || e.LogError?) ==> Step(t, Event(id, e)) == Applied(t)
    ensures (e.HookDownloading? || e.HookFinished? || e.HookError?) ==> Step(t, Event(id, e)) == Applied(t)
    ensures e.PostProcessing? ==> Step(t, Event(id, e)) == Applied(t)
    ensures Unguarded(e) ==> Step(t, Event(id, e)) == Missing(id)
  {
  }

  lemma ConcatAssoc<T>(x: seq<T>, y: seq<T>, z: seq<T>)
    ensures x + (y + z) == (x + y) + z
  {
  }

  /** Projection distributes over concatenation. */
  lemma {:induction false} ProjectConcat(a: seq<Event>, b: seq<Event>, id: JobId)
    ensures Project(a + b, id) == Project(a, id) + Project(b, id)
    decreases |a|
  {
    if a == [] {
      assert a + b == b;
    } else {
      var head := if a[0].id == id then [a[0].body] else [];
      assert (a + b)[0] == a[0];
      assert (a + b)[1..] == a[1..] + b;
      assert Project(a + b, id) == head + Project(a[1..] + b, id);
      ProjectConcat(a[1..], b, id);
      assert Project(a, id) == head + Project(a[1..], id);
      ConcatAssoc(head, Project(a[1..], id), Project(b, id));
    }
  }

  /** Jobs with distinct ids do not interfere, whatever the trace: each job
      in the table ends as its own events, applied alone in order, would
      leave it. Events of unknown ids, raising or not, change nothing. */
  lemma {:induction false} TableIsolation(t: Table, evs: seq<Event>)
    ensures forall k :: k in t ==> RunTrace(t, evs).table[k] == ApplyAll(t[k], Project(evs, k))
    decreases |evs|
  {
    if evs != [] {
      TraceStep(t, evs);
      TableIsolation(Next(t, evs[0]), evs[1..]);
    }
  }

  /** One step of the induction above: the first event either is the job's
      own, and is applied first, or belongs to another id and is skipped. */
  lemma TraceStep(t: Table, evs: seq<Event>)
    requires evs != []
    ensures RunTrace(t, evs).table == RunTrace(Next(t, evs[0]), evs[1..]).table
    ensures forall k :: k in t ==>
              ApplyAll(Next(t, evs[0])[k], Project(evs[1..], k)) == ApplyAll(t[k], Project(evs, k))
  {
    var ev := evs[0];
    var t' := Next(t, ev);
    forall k | k in t
      ensures ApplyAll(t'[k], Project(evs[1..], k)) == ApplyAll(t[k], Project(evs, k))
    {
      var own := Project(evs[1..], k);
      if k == ev.id {
        assert Project(evs, k) == [ev.body] + own;
        ApplyAllCons(t[k], ev.body, own);
      } else {
        assert Project(evs, k) == [] + own;
        assert [] + own == own;
      }
    }
  }

  /** When every event's job is in the table, no thread dies, and each
      record ends as its own events leave it. */
  lemma Isolation(t: Table, evs: seq<Event>)
    requires forall i :: 0 <= i < |evs| ==> evs[i].id in t
    ensures RunTrace(t, evs).crashed == {}
    ensures forall k :: k in t ==> RunTrace(t, evs).table[k] == ApplyAll(t[k], Project(evs, k))
  {
    TableIsolation(t, evs);
  }

  /** Events of other jobs never change a job's record. */
  lemma {:induction false} OthersDoNotTouch(t: Table, evs: seq<Event>, id: JobId)
    requires id in t
    requires forall i :: 0 <= i < |evs| ==> evs[i].id in t && evs[i].id != id
    ensures RunTrace(t, evs).crashed == {} && RunTrace(t, evs).table[id] == t[id]
  {
    Isolation(t, evs);
  }

  /** A job whose id is unknown dies at an unguarded event, wherever it
      falls in the trace; the table ends exactly as if that event had never
      happened. When it is the only event with an unknown id, its job is
      the only one that dies. */
  lemma DeadJobDoesNotStopOthers(t: Table, pre: seq<Event>, x: JobId, e: JobEvent, post: seq<Event>)
    requires x !in t && Unguarded(e)
    ensures x in RunTrace(t, pre + [Event(x, e)] + post).crashed
    ensures RunTrace(t, pre + [Event(x, e)] + post).table == RunTrace(t, pre + post).table
    ensures (forall i :: 0 <= i < |pre + post| ==> (pre + post)[i].id in t) ==>
              RunTrace(t, pre + [Event(x, e)] + post).crashed == {x}
  {
    var ev := Event(x, e);
    assert (pre + [ev] + post)[|pre|] == ev;
    DeadEventSkipped(t, pre, ev, post);
    if forall i :: 0 <= i < |pre + post| ==> (pre + post)[i].id in t {
      OnlyDeadCrashes(t, pre, ev, post);
    }
  }

  /** An event of an unknown id leaves the final table as it would be
      without that event. */
  lemma DeadEventSkipped(t: Table, pre: seq<Event>, ev: Event, post: seq<Event>)
    requires ev.id !in t
    ensures RunTrace(t, pre + [ev] + post).table == RunTrace(t, pre + post).table
  {
    var evs := pre + [ev] + post;
    TableIsolation(t, evs);
    TableIsolation(t, pre + post);
    forall k | k in t
      ensures Project(evs, k) == Project(pre + post, k)
    {
      SkipProject(pre, ev, post, k);
    }
  }

  /** Another id's event contributes nothing to a job's projection. */
  lemma SkipProject(pre: seq<Event>, ev: Event, post: seq<Event>, k: JobId)
    requires ev.id != k
    ensures Project(pre + [ev] + post, k) == Project(pre + post, k)
  {
    ProjectConcat(pre + [ev], post, k);
    ProjectConcat(pre, [ev], k);
    ProjectConcat(pre, post, k);
    assert Project([ev], k) == [];
    assert Project(pre, k) + [] == Project(pre, k);
  }

  /** With one event of an unknown id in a trace of known ids, only that
      event's id can be recorded as crashed. */
  lemma OnlyDeadCrashes(t: Table, pre: seq<Event>, ev: Event, post: seq<Event>)
    requires forall i :: 0 <= i < |pre + post| ==> (pre + post)[i].id in t
    ensures RunTrace(t, pre + [ev] + post).crashed <= {ev.id}
  {
    var evs := pre + [ev] + post;
    assert forall i :: 0 <= i < |evs| && i != |pre| ==> evs[i].id in t by {
      forall i | 0 <= i < |evs| && i != |pre|
        ensures evs[i].id in t
      {
        if i < |pre| {
          assert evs[i] == (pre + post)[i];
        } else {
          assert evs[i] == (pre + post)[i - 1];
        }
      }
    }
    forall y | y in RunTrace(t, evs).crashed
      ensures y == ev.id
    {
      var i :| 0 <= i < |evs| && evs[i].id == y && Unguarded(evs[i].body);
    }
  }
}

/** The mapping and cutting session slots of the cart (front/hooks/useCartSession.ts). */
module CartSession {
  import opened Optional
  import opened Common

  datatype MappingStatus = Mapping | Completed

  datatype MappingSession = MappingSession(
    id: string,
    startTime: int,
    endTime: Option<int>,
    path: seq<Position>,
    area: real,
    obstacles: seq<Obstacle>,
    status: MappingStatus)

  datatype CuttingStatus = Cutting | Paused | Stopped

  /** A cutting pass over a mapped path. `endTime`, `pausedAt` and
      `resumedAt` are absent until a record spread first sets them. */
  datatype CuttingSession = CuttingSession(
    id: string,
    mappingSessionId: string,
    startTime: int,
    endTime: Option<int>,
    pausedAt: Option<int>,
    resumedAt: Option<int>,
    completedPath: seq<Position>,
    totalPath: seq<Position>,
    status: CuttingStatus,
    estimatedCompletionTime: real)

  /** Milliseconds of cutting the source budgets per square metre. */
  const CuttingMsPerSquareMetre: real := 2.0 * 60.0 * 1000.0

  /** The session `startMapping` creates at time `now`. */
  function FreshMapping(now: nat): (m: MappingSession)
    ensures m.id == "mapping_" + NatToString(now) && m.startTime == now
    ensures m.status == Mapping && m.endTime == None
    ensures m.path == [] && m.obstacles == [] && m.area == 0.0
  {
    MappingSession("mapping_" + NatToString(now), now, None, [], 0.0, [], Mapping)
  }

  /** Mapping and cutting sessions started at different clock readings get
      different ids. */
  lemma SessionIdsDistinct(a: nat, b: nat, m: MappingSession, mappingSessionId: string)
    requires a != b
    ensures FreshMapping(a).id != FreshMapping(b).id
    ensures FreshCutting(m, mappingSessionId, a).id != FreshCutting(m, mappingSessionId, b).id
  {
    NatToStringInjective(a, b);
    var p, q := "mapping_" + NatToString(a), "mapping_" + NatToString(b);
    assert p[8..] == NatToString(a) && q[8..] == NatToString(b);
    var u, v := "cutting_" + NatToString(a), "cutting_" + NatToString(b);
    assert u[8..] == NatToString(a) && v[8..] == NatToString(b);
  }

  /** `{...prev, endTime: now, status: 'completed'}`. */
  function CompletedMapping(m: MappingSession, now: nat): (r: MappingSession)
    ensures r.status == Completed && r.endTime == Some(now)
    ensures r.(status := m.status, endTime := m.endTime) == m
  {
    m.(endTime := Some(now), status := Completed)
  }

  /** The session `startCutting` creates from the current mapping session. */
  function FreshCutting(m: MappingSession, mappingSessionId: string, now: nat): (c: CuttingSession)
    ensures c.id == "cutting_" + NatToString(now) && c.mappingSessionId == mappingSessionId
    ensures c.startTime == now && c.endTime == None && c.pausedAt == None && c.resumedAt == None
    ensures c.totalPath == m.path && c.completedPath == [] && c.status == Cutting
    ensures c.estimatedCompletionTime == now as real + m.area * 120000.0
  {
    CuttingSession("cutting_" + NatToString(now), mappingSessionId, now, None, None, None,
                   [], m.path, Cutting, now as real + m.area * CuttingMsPerSquareMetre)
  }

  /** `{...prev, status: 'paused', pausedAt: now}`. */
  function PausedCutting(c: CuttingSession, now: nat): (r: CuttingSession)
    ensures r.status == Paused && r.pausedAt == Some(now)
    ensures r.(status := c.status, pausedAt := c.pausedAt) == c
  {
    c.(status := Paused, pausedAt := Some(now))
  }

  /** `{...prev, status: 'cutting', resumedAt: now}`, whatever the prior status. */
  function ResumedCutting(c: CuttingSession, now: nat): (r: CuttingSession)
    ensures r.status == Cutting && r.resumedAt == Some(now)
    ensures r.(status := c.status, resumedAt := c.resumedAt) == c
  {
    c.(status := Cutting, resumedAt := Some(now))
  }

  /** `{...prev, status: 'stopped', endTime: now}`. */
  function StoppedCutting(c: CuttingSession, now: nat): (r: CuttingSession)
    ensures r.status == Stopped && r.endTime == Some(now)
    ensures r.(status := c.status, endTime := c.endTime) == c
  {
    c.(status := Stopped, endTime := Some(now))
  }

  /** Pausing and then resuming returns to cutting over the same paths. */
  lemma PauseThenResume(c: CuttingSession, paused: nat, resumed: nat)
    ensures var r := ResumedCutting(PausedCutting(c, paused), resumed);
            r.status == Cutting && r.id == c.id && r.totalPath == c.totalPath
            && r.completedPath == c.completedPath && r.pausedAt == Some(paused) && r.resumedAt == Some(resumed)
  {
  }

  /** Resume does not check the prior status: a stopped pass goes back to
      cutting and keeps its end time. */
  lemma ResumeAfterStop(c: CuttingSession, stopped: nat, resumed: nat)
    ensures var r := ResumedCutting(StoppedCutting(c, stopped), resumed);
            r.status == Cutting && r.endTime == Some(stopped)
  {
  }

  /** The hook's state. `currentPosition` is declared by the hook and never set by it. */
  class CartSessionState {
    var mappingSession: Option<MappingSession>
    var cuttingSession: Option<CuttingSession>
    var currentPosition: Option<Position>

    constructor ()
      ensures mappingSession == None && cuttingSession == None && currentPosition == None
    {
      mappingSession := None;
      cuttingSession := None;
      currentPosition := None;
    }

    /** Replaces any mapping session with a fresh one. */
    method StartMapping(now: nat)
      modifies this`mappingSession
      ensures mappingSession == Some(FreshMapping(now))
    {
      mappingSession := Some(FreshMapping(now));
    }

    /** Completes the mapping session; nothing happens without one. */
    method StopMapping(now: nat)
      modifies this`mappingSession
      ensures old(mappingSession).None? ==> mappingSession == None
      ensures old(mappingSession).Some? ==> mappingSession == Some(CompletedMapping(old(mappingSession).value, now))
    {
      if mappingSession.Some? {
        mappingSession := Some(CompletedMapping(mappingSession.value, now));
      }
    }

    /** Starts cutting the mapped path; nothing happens without a mapping session.
        The id argument is stored as given and not compared with the session's id. */
    method StartCutting(mappingSessionId: string, now: nat)
      modifies this`cuttingSession
      ensures mappingSession.None? ==> cuttingSession == old(cuttingSession)
      ensures mappingSession.Some? ==> cuttingSession == Some(FreshCutting(mappingSession.value, mappingSessionId, now))
    {
      if mappingSession.None? {
        return;
      }
      cuttingSession := Some(FreshCutting(mappingSession.value, mappingSessionId, now));
    }

    method PauseCutting(now: nat)
      modifies this`cuttingSession
      ensures old(cuttingSession).None? ==> cuttingSession == None
      ensures old(cuttingSession).Some? ==> cuttingSession == Some(PausedCutting(old(cuttingSession).value, now))
    {
      if cuttingSession.Some? {
        cuttingSession := Some(PausedCutting(cuttingSession.value, now));
      }
    }

    method ResumeCutting(now: nat)
      modifies this`cuttingSession
      ensures old(cuttingSession).None? ==> cuttingSession == None
      ensures old(cuttingSession).Some? ==> cuttingSession == Some(ResumedCutting(old(cuttingSession).value, now))
    {
      if cuttingSession.Some? {
        cuttingSession := Some(ResumedCutting(cuttingSession.value, now));
      }
    }

    method StopCutting(now: nat)
      modifies this`cuttingSession
      ensures old(cuttingSession).None? ==> cuttingSession == None
      ensures old(cuttingSession).Some? ==> cuttingSession == Some(StoppedCutting(old(cuttingSession).value, now))
    {
      if cuttingSession.Some? {
        cuttingSession := Some(StoppedCutting(cuttingSession.value, now));
      }
    }
  }
}

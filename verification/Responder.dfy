/** The escalating responder and the gate in front of the coordinator's routes. */
module Responder {
  import opened Prelude
  import opened Domain
  import opened Ledger
  import opened Text

  datatype ThreatDecision = Tarpit | Block

  // ---- The responder ----

  /** Strikes are `u32`. */
  datatype Inner = Inner(strikes: map<Str, nat>, blocked: set<Str>) {
    function Strikes(fp: Str): nat { if fp in strikes then strikes[fp] else 0 }
  }

  const EMPTY := Inner(map[], {})

  function Assessed(s: Inner, blockAfter: nat, fp: Str): (Inner, ThreatDecision) {
    if fp in s.blocked then (s, Block)
    else
      var n := s.Strikes(fp) + 1;
      var strikes := s.strikes[fp := n];
      if n >= blockAfter then (Inner(strikes, s.blocked + {fp}), Block) else (Inner(strikes, s.blocked), Tarpit)
  }

  class EscalatingThreatResponder {
    var strikes: map<Str, nat>
    var blocked: set<Str>
    const blockAfter: nat

    function State(): Inner
      reads this
    {
      Inner(strikes, blocked)
    }

    constructor (blockAfter: nat)
      ensures State() == EMPTY && this.blockAfter == Max(blockAfter, 1)
    {
      strikes, blocked := map[], {};
      this.blockAfter := Max(blockAfter, 1);
    }

    method Assess(fp: Str) returns (d: ThreatDecision)
      modifies this`strikes, this`blocked
      ensures (State(), d) == Assessed(old(State()), blockAfter, fp)
      ensures old(blocked) <= blocked
    {
      if fp in blocked {
        return Block;
      }
      ghost var before := strikes;
      if fp !in strikes {
        strikes := strikes[fp := 0];
      }
      strikes := strikes[fp := strikes[fp] + 1];
      assert strikes == before[fp := old(State()).Strikes(fp) + 1];
      if strikes[fp] >= blockAfter {
        blocked := blocked + {fp};
        return Block;
      }
      return Tarpit;
    }

    method IsBlocked(fp: Str) returns (b: bool)
      ensures b <==> fp in State().blocked
    {
      return fp in blocked;
    }
  }

  // ---- The trace law ----

  /** The state after assessing a trace of fingerprints. */
  function After(trace: seq<Str>, blockAfter: nat): Inner {
    if trace == [] then EMPTY
    else Assessed(After(trace[..|trace| - 1], blockAfter), blockAfter, trace[|trace| - 1]).0
  }

  function DecisionAt(trace: seq<Str>, blockAfter: nat, i: nat): ThreatDecision
    requires i < |trace|
  {
    Assessed(After(trace[..i], blockAfter), blockAfter, trace[i]).1
  }

  function Seen(trace: seq<Str>, fp: Str): nat { multiset(trace)[fp] }

  /** The state is the count of each fingerprint's own assessments: strikes stop at the limit, so a
      u32 never overflows, and the limit is exactly when the fingerprint becomes blocked. */
  lemma {:induction false} StateIsCount(trace: seq<Str>, blockAfter: nat, fp: Str)
    requires blockAfter >= 1
    ensures After(trace, blockAfter).Strikes(fp) == Min(Seen(trace, fp), blockAfter)
    ensures fp in After(trace, blockAfter).blocked <==> Seen(trace, fp) >= blockAfter
  {
    if trace != [] {
      var front, last := trace[..|trace| - 1], trace[|trace| - 1];
      StateIsCount(front, blockAfter, fp);
      StateIsCount(front, blockAfter, last);
      assert trace == front + [last];
    }
  }

  /** Whatever the interleaving, one fingerprint sees its first blockAfter - 1 assessments tarpitted
      and every later one blocked. */
  lemma DecisionLaw(trace: seq<Str>, blockAfter: nat, i: nat)
    requires blockAfter >= 1 && i < |trace|
    ensures DecisionAt(trace, blockAfter, i)
         == if Seen(trace[..i], trace[i]) < blockAfter - 1 then Tarpit else Block
  {
    StateIsCount(trace[..i], blockAfter, trace[i]);
  }

  // ---- The gate ----

  /** `inFlight` are the requests running app logic; `rejected` counts, per fingerprint, the requests
      that ran it and were turned away; `dropped` the ones refused before. */
  datatype Gate = Gate(
    inner: Inner, inFlight: map<nat, Str>, rejected: multiset<Str>, dropped: nat, ledger: seq<IntrusionRecord>)

  const OPEN := Gate(EMPTY, map[], multiset{}, 0, [])

  datatype GateEvent =
    | Arrive(id: nat, fp: Str, path: Str, now: Timestamp)
    | Finish(id: nat, status: nat, path: Str, now: Timestamp)

  predicate Rejects(status: nat) { status == 401 || status == 403 || status == 429 }

  function Classify(status: nat): Str {
    match status
    case 401 => Ascii("bad_or_forged_credential")
    case 403 => Ascii("authorization_violation")
    case 429 => Ascii("abuse_or_dos")
    case _ => Ascii("suspicious")
  }

  function DecisionText(d: ThreatDecision): Str {
    match d
    case Tarpit => Ascii("Tarpit")
    case Block => Ascii("Block")
  }

  /** The middleware, cut where it awaits the app: the check on arrival, the assessment on return. */
  function GateStep(g: Gate, blockAfter: nat, e: GateEvent): Gate {
    match e
    case Arrive(id, fp, path, now) =>
      if id in g.inFlight then g
      else if fp in g.inner.blocked then
        var footprint := IntrusionRecord(
          fp, Some(fp), Ascii("blocked_fingerprint"), Ascii("blocklisted; path=") + path, now);
        g.(dropped := g.dropped + 1, ledger := g.ledger + [footprint])
      else g.(inFlight := g.inFlight[id := fp])
    case Finish(id, status, path, now) =>
      if id !in g.inFlight then g
      else
        var fp := g.inFlight[id];
        var g' := g.(inFlight := g.inFlight - {id});
        if !Rejects(status) then g'
        else
          var (inner, d) := Assessed(g.inner, blockAfter, fp);
          var footprint := IntrusionRecord(fp, Some(fp), Classify(status),
            Ascii("status=") + Decimal(status) + Ascii(" path=") + path
            + Ascii(" decision=") + DecisionText(d), now);
          g'.(inner := inner, rejected := g.rejected + multiset{fp}, ledger := g.ledger + [footprint])
  }

  /** One strike more for this fingerprint, and blocked from the limit on; once blocked nothing changes. */
  ghost predicate Struck(s: Inner, s': Inner, blockAfter: nat, fp: Str) {
    if fp in s.blocked then s' == s
    else
      && s'.Strikes(fp) == s.Strikes(fp) + 1
      && (forall other :: other != fp ==> s'.Strikes(other) == s.Strikes(other))
      && s'.blocked == if s'.Strikes(fp) >= blockAfter then s.blocked + {fp} else s.blocked
  }

  lemma AssessedStrikes(s: Inner, blockAfter: nat, fp: Str)
    ensures
      var (s', d) := Assessed(s, blockAfter, fp);
      Struck(s, s', blockAfter, fp) && (d == Block <==> fp in s'.blocked)
  {}

  function Records(entries: seq<LedgerEntry>): (r: seq<IntrusionRecord>)
    ensures |r| == |entries| && forall i :: 0 <= i < |r| ==> r[i] == entries[i].record
  {
    seq(|entries|, i requires 0 <= i < |entries| => entries[i].record)
  }

  /** The middleware's two halves over the responder and the ledger, each one step of the gate. */
  class Perimeter {
    const responder: EscalatingThreatResponder
    const intrusions: LedgerIntrusionSink

    constructor (responder: EscalatingThreatResponder, intrusions: LedgerIntrusionSink)
      ensures this.responder == responder && this.intrusions == intrusions
    {
      this.responder, this.intrusions := responder, intrusions;
    }

    /** Does the gate describe the responder and the footprints recorded? */
    ghost predicate Shows(g: Gate)
      reads responder, intrusions
    {
      g.inner == responder.State() && g.ledger == Records(intrusions.entries)
    }

    method Record(footprint: IntrusionRecord)
      modifies intrusions`entries
      ensures Records(intrusions.entries) == Records(old(intrusions.entries)) + [footprint]
    {
      intrusions.Append(footprint);
      assert Records(intrusions.entries)[..|old(intrusions.entries)|] == Records(old(intrusions.entries));
    }

    /** Before the app: a blocked fingerprint is recorded and goes no further. */
    method Enter(id: nat, fp: Str, path: Str, now: Timestamp, ghost g: Gate) returns (passed: bool)
      requires Shows(g) && id !in g.inFlight
      modifies intrusions`entries
      ensures Shows(GateStep(g, responder.blockAfter, Arrive(id, fp, path, now)))
      ensures passed <==> id in GateStep(g, responder.blockAfter, Arrive(id, fp, path, now)).inFlight
      // exactly the blocked are stopped, and leave a footprint
      ensures passed <==> fp !in responder.blocked
      ensures passed ==> intrusions.entries == old(intrusions.entries)
      ensures !passed ==>
        var footprint := IntrusionRecord(
          fp, Some(fp), Ascii("blocked_fingerprint"), Ascii("blocklisted; path=") + path, now);
        Records(intrusions.entries) == Records(old(intrusions.entries)) + [footprint]
    {
      hide Ascii;
      var blocked := responder.IsBlocked(fp);
      if blocked {
        Record(IntrusionRecord(fp, Some(fp), Ascii("blocked_fingerprint"), Ascii("blocklisted; path=") + path, now));
        return false;
      }
      return true;
    }

    /** After the app: a rejection is a strike and a footprint. */
    method Leave(id: nat, fp: Str, path: Str, now: Timestamp, status: nat, ghost g: Gate)
      requires Shows(g) && id in g.inFlight && g.inFlight[id] == fp
      modifies responder`strikes, responder`blocked, intrusions`entries
      ensures Shows(GateStep(g, responder.blockAfter, Finish(id, status, path, now)))
      // 401, 403 and 429, and no others, are one strike and one footprint
      ensures status !in {401, 403, 429} ==>
        responder.State() == old(responder.State()) && intrusions.entries == old(intrusions.entries)
      ensures status in {401, 403, 429} ==> Struck(old(responder.State()), responder.State(), responder.blockAfter, fp)
      ensures status in {401, 403, 429} ==>
        var cause :=
          if status == 401 then Ascii("bad_or_forged_credential")
          else if status == 403 then Ascii("authorization_violation") else Ascii("abuse_or_dos");
        var decision := if fp in responder.blocked then Ascii("Block") else Ascii("Tarpit");
        var reason := Ascii("status=") + Decimal(status) + Ascii(" path=") + path + Ascii(" decision=") + decision;
        Records(intrusions.entries)
        == Records(old(intrusions.entries)) + [IntrusionRecord(fp, Some(fp), cause, reason, now)]
    {
      hide Ascii, Decimal;
      if Rejects(status) {
        var cause := Classify(status);
        ghost var before := responder.State();
        var decision := responder.Assess(fp);
        AssessedStrikes(before, responder.blockAfter, fp);
        Record(IntrusionRecord(fp, Some(fp), cause,
          Ascii("status=") + Decimal(status) + Ascii(" path=") + path +
          Ascii(" decision=") + DecisionText(decision), now));
      }
    }
  }

  function GateAfter(events: seq<GateEvent>, blockAfter: nat): Gate {
    if events == [] then OPEN
    else GateStep(GateAfter(events[..|events| - 1], blockAfter), blockAfter, events[|events| - 1])
  }

  function Running(g: Gate, fp: Str): set<nat> { set id | id in g.inFlight && g.inFlight[id] == fp }

  ghost predicate GateInv(g: Gate, blockAfter: nat, fp: Str, p: nat) {
    && (fp !in g.inner.blocked ==> g.rejected[fp] == g.inner.Strikes(fp) < blockAfter)
    && (fp in g.inner.blocked ==> g.rejected[fp] + |Running(g, fp)| <= blockAfter - 1 + p)
  }

  lemma AssessedFacts(s: Inner, blockAfter: nat, fp: Str, other: Str)
    ensures
      var t := Assessed(s, blockAfter, fp).0;
      if other != fp || fp in s.blocked then
        t.Strikes(other) == s.Strikes(other) && (other in t.blocked <==> other in s.blocked)
      else t.Strikes(fp) == s.Strikes(fp) + 1 && (fp in t.blocked <==> s.Strikes(fp) + 1 >= blockAfter)
  {}

  lemma FinishFields(g: Gate, blockAfter: nat, id: nat, status: nat, path: Str, now: Timestamp)
    requires id in g.inFlight
    ensures
      var g' := GateStep(g, blockAfter, Finish(id, status, path, now));
      && g'.inFlight == g.inFlight - {id}
      && (!Rejects(status) ==> g'.inner == g.inner && g'.rejected == g.rejected)
      && (Rejects(status) ==>
            && g'.inner == Assessed(g.inner, blockAfter, g.inFlight[id]).0
            && g'.rejected == g.rejected + multiset{g.inFlight[id]})
  {
    hide Ascii, Decimal, Classify, DecisionText, Assessed;
  }

  lemma RunningWithout(g: Gate, g': Gate, id: nat, fp: Str)
    requires id in g.inFlight && g'.inFlight == g.inFlight - {id}
    ensures |Running(g', fp)| == |Running(g, fp)| - if g.inFlight[id] == fp then 1 else 0
  {
    assert Running(g', fp) == if g.inFlight[id] == fp then Running(g, fp) - {id} else Running(g, fp);
  }

  lemma FinishInv(g: Gate, blockAfter: nat, id: nat, status: nat, path: Str, now: Timestamp, fp: Str, p: nat)
    requires blockAfter >= 1 && GateInv(g, blockAfter, fp, p) && |Running(g, fp)| <= p
    requires id in g.inFlight
    ensures GateInv(GateStep(g, blockAfter, Finish(id, status, path, now)), blockAfter, fp, p)
  {
    var g' := GateStep(g, blockAfter, Finish(id, status, path, now));
    FinishFields(g, blockAfter, id, status, path, now);
    AssessedFacts(g.inner, blockAfter, g.inFlight[id], fp);
    RunningWithout(g, g', id, fp);
    hide GateStep, Assessed, Rejects, Running;
  }

  /** Every refusal, early or late, leaves exactly one footprint. */
  lemma {:induction false} OneFootprintEach(events: seq<GateEvent>, blockAfter: nat)
    ensures
      var g := GateAfter(events, blockAfter);
      |g.ledger| == |g.rejected| + g.dropped
  {
    if events != [] {
      hide Ascii, Decimal, Classify, DecisionText, Assessed;
      OneFootprintEach(events[..|events| - 1], blockAfter);
    }
  }

  lemma GateStepInv(g: Gate, blockAfter: nat, e: GateEvent, fp: Str, p: nat)
    requires blockAfter >= 1 && GateInv(g, blockAfter, fp, p) && |Running(g, fp)| <= p
    ensures GateInv(GateStep(g, blockAfter, e), blockAfter, fp, p)
  {
    hide Ascii, Assessed;
    match e
    case Arrive(id, other, _, _) =>
      var g' := GateStep(g, blockAfter, e);
      if id !in g.inFlight && other !in g.inner.blocked && other != fp {
        assert Running(g', fp) == Running(g, fp);
      }
    case Finish(id, status, path, now) =>
      if id in g.inFlight {
        FinishInv(g, blockAfter, id, status, path, now, fp, p);
      }
  }

  /** With at most p requests of a fingerprint in flight at any time, at most blockAfter - 1 + p of its
      rejected requests ever ran app logic. */
  lemma {:induction false} GateBound(events: seq<GateEvent>, blockAfter: nat, fp: Str, p: nat)
    requires blockAfter >= 1
    requires forall i :: 0 <= i <= |events| ==> |Running(GateAfter(events[..i], blockAfter), fp)| <= p
    ensures GateInv(GateAfter(events, blockAfter), blockAfter, fp, p)
    ensures GateAfter(events, blockAfter).rejected[fp] <= blockAfter - 1 + p
  {
    hide *;
    if events == [] {
      OpenGate(blockAfter, fp, p);
    } else {
      var front := events[..|events| - 1];
      forall i | 0 <= i <= |front|
        ensures |Running(GateAfter(front[..i], blockAfter), fp)| <= p
      {
        assert front[..i] == events[..i];
      }
      GateBound(front, blockAfter, fp, p);
      assert front[..|front|] == front;
      GateLast(events, blockAfter);
      GateStepInv(GateAfter(front, blockAfter), blockAfter, events[|front|], fp, p);
    }
    GateInvBounds(GateAfter(events, blockAfter), blockAfter, fp, p);
  }

  lemma OpenGate(blockAfter: nat, fp: Str, p: nat)
    requires blockAfter >= 1
    ensures GateInv(GateAfter([], blockAfter), blockAfter, fp, p)
  {}

  lemma GateLast(events: seq<GateEvent>, blockAfter: nat)
    requires events != []
    ensures GateAfter(events, blockAfter)
         == GateStep(GateAfter(events[..|events| - 1], blockAfter), blockAfter, events[|events| - 1])
  {
    hide GateStep;
  }

  lemma GateInvBounds(g: Gate, blockAfter: nat, fp: Str, p: nat)
    requires blockAfter >= 1 && GateInv(g, blockAfter, fp, p)
    ensures g.rejected[fp] <= blockAfter - 1 + p
  {
    hide Running;
  }
}

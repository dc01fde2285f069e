/**
 * Admission of caller turns: every delivery is decided once, under the turn lock, against the
 * checkpoint it finds there and the interrupts it saw when it arrived.
 */
module Admission {
  import opened Results
  import Recovery

  /** A recovery marker on the checkpoint: whether the engine accepts it, and whether it is an abandoned safe abort. */
  datatype Marked = Marked(accepted: bool, abandonedSafeAbort: bool)

  /** What the dispatch reads from a checkpoint. */
  datatype Checkpoint = Checkpoint(
    consumed: seq<string>, interrupts: seq<string>, interruptOwned: bool, marker: Option<Marked>, terminal: bool,
    next: bool, tasks: bool, pristineContinuation: bool, redelivers: Option<string>)

  type Thread = nat

  datatype Arrival = Arrival(id: Option<string>, thread: Thread, interrupts: set<string>)

  datatype Engine = Engine(thread: Thread, checkpoint: Checkpoint, open: bool, latched: bool)

  datatype Decision =
    | SessionClosed | AlreadyTerminal | MissingId | Ignored
    | LastResort
    | NewTurn(id: string)  // the caller's message enters the conversation
    | Resume(interrupt: string, id: string)  // the reply answers a paused question
    | ConsumeOnly(id: string)  // the graph goes on, the id is marked, the words are not used
    | FallBack(id: string)  // the id is marked and the caller asked to repeat
    | GoOn  // the graph goes on and nothing is marked

  /** The ids a decision's graph input marks as consumed. */
  function Marks(d: Decision): seq<string> {
    match d
    case NewTurn(id) => [id]
    case Resume(_, id) => [id]
    case ConsumeOnly(id) => [id]
    case FallBack(id) => [id]
    case _ => []
  }

  /** The dispatch tree. `setsAside` says a reply at a paused question turned out to be another request. */
  function Decide(a: Arrival, id: string, thread: Thread, c: Checkpoint, setsAside: bool): Decision {
    var seen := id in c.consumed;
    if !c.terminal && c.marker.Some? && !c.marker.value.accepted then LastResort
    else if c.terminal then
      if seen then Ignored else NewTurn(id)
    else if a.thread != thread then
      if c.marker.Some? then
        if seen then GoOn else ConsumeOnly(id)
      else if seen then Ignored
      else if c.interrupts != [] then
        if c.interruptOwned then ConsumeOnly(id) else LastResort
      else if !c.next && !c.tasks then FallBack(id)
      else if c.pristineContinuation then ConsumeOnly(id)
      else LastResort
    else if c.marker.Some? then
      if c.marker.value.abandonedSafeAbort && !seen then NewTurn(id)
      else if seen then GoOn else ConsumeOnly(id)
    else if seen then
      if c.redelivers == Some(id) then GoOn else Ignored
    else if c.interrupts != [] then
      if !c.interruptOwned then LastResort
      else if c.interrupts[0] in a.interrupts then
        if setsAside then NewTurn(id) else Resume(c.interrupts[0], id)
      else ConsumeOnly(id)
    else if c.next then
      if c.pristineContinuation then ConsumeOnly(id) else LastResort
    else if c.tasks then LastResort
    else NewTurn(id)
  }

  /** What the gates before the dispatch tree answer. */
  function Gate(e: Engine, a: Arrival): Option<Decision> {
    if !e.open then Some(SessionClosed)
    else if e.latched then Some(AlreadyTerminal)
    else if a.id.None? then Some(MissingId)
    else None
  }

  // A principal rotation found pending when the turn begins; a completed one has consumed the arriving id.
  datatype Turnover = NoTurnover | IntoThread(thread: Thread, checkpoint: Checkpoint) | TurnoverRaised

  // How the graph run ends: its input may never have been committed, as when the stream is cancelled.
  datatype Ending = Uncommitted(left: Checkpoint) | Committed(left: Checkpoint, thread: Thread) | Broke(left: Checkpoint)

  datatype Step =
    | Deliver(arrival: Arrival, turnover: Turnover, setsAside: bool, ending: Ending)
    | StopAdmission

  /** Deliveries whose words were used, for a new turn or as an answer, with what was decided for them. */
  datatype World = World(e: Engine, used: seq<(Arrival, Decision)>)

  predicate UsesWords(d: Decision) {
    d.NewTurn? || d.Resume?
  }

  function AfterTurnover(e: Engine, t: Turnover): Engine {
    match t
    case NoTurnover => e
    case IntoThread(thread, checkpoint) => e.(thread := thread, checkpoint := checkpoint)
    case TurnoverRaised => e.(latched := true)
  }

  /** The graph never forgets a consumed id, and a committed input marks its own. */
  predicate Can(w: World, step: Step) {
    match step
    case StopAdmission => true
    case Deliver(a, turnover, setsAside, ending) =>
      Gate(w.e, a).None? ==>
        && (turnover.IntoThread? ==>
              && turnover.thread != w.e.thread
              && turnover.checkpoint.consumed == Recovery.Merge(w.e.checkpoint.consumed, [a.id.value]))
        && (var e := AfterTurnover(w.e, turnover);
            var d := Decide(a, a.id.value, e.thread, e.checkpoint, setsAside);
            match ending
            case Uncommitted(left) => e.checkpoint.consumed <= left.consumed
            case Committed(left, _) => Recovery.Merge(e.checkpoint.consumed, Marks(d)) <= left.consumed
            case Broke(_) => true)
  }

  function After(w: World, step: Step): World {
    match step
    case StopAdmission => w.(e := w.e.(open := false))
    case Deliver(a, turnover, setsAside, ending) =>
      if Gate(w.e, a).Some? then w
      else
        var e := AfterTurnover(w.e, turnover);
        if e.latched then w.(e := e)
        else
          var d := Decide(a, a.id.value, e.thread, e.checkpoint, setsAside);
          if d.LastResort? then w.(e := e.(latched := true))
          else if d.Ignored? then w.(e := e)
          else
            match ending
            case Uncommitted(left) => w.(e := e.(checkpoint := left))
            case Broke(left) => w.(e := e.(checkpoint := left, latched := true))
            case Committed(left, thread) =>
              World(e.(checkpoint := left, thread := thread), if UsesWords(d) then w.used + [(a, d)] else w.used)
  }

  ghost predicate IsRun(ws: seq<World>, steps: seq<Step>) {
    && |ws| == |steps| + 1
    && ws[0].used == []
    && forall i :: 0 <= i < |steps| ==> Can(ws[i], steps[i]) && ws[i + 1] == After(ws[i], steps[i])
  }

  /** An id is used for at most one thing, and a used id is a consumed one for as long as turns are taken. */
  ghost predicate Inv(w: World) {
    && (forall i :: 0 <= i < |w.used| ==> UseOk(w.e, w.used[i].0, w.used[i].1))
    && (forall i, j :: 0 <= i < j < |w.used| ==> w.used[i].1.id != w.used[j].1.id)
  }

  ghost predicate UseOk(e: Engine, a: Arrival, d: Decision) {
    && UsesWords(d) && a.id == Some(d.id)
    && (d.Resume? ==> d.interrupt in a.interrupts)
    && (!e.latched ==> d.id in e.checkpoint.consumed)
  }

  /** Words are only used, for a new turn or as an answer, under an id that was not consumed before. */
  lemma OnlyFreshIdsSpeak(a: Arrival, id: string, thread: Thread, c: Checkpoint, setsAside: bool)
    ensures var d := Decide(a, id, thread, c, setsAside);
            && (d.NewTurn? || d.Resume? ==> d.id == id && id !in c.consumed)
            && (d.Resume? ==> c.interrupts != [] && d.interrupt == c.interrupts[0] && d.interrupt in a.interrupts)
            && (id in c.consumed ==> Marks(d) == [])
  {
  }

  /**
   * A delivery that arrived on another thread never answers a question here, and its words are admitted
   * only when automation has already ended, where a new message still gets the terminal line. A delivery
   * whose arrival brought a turnover about never speaks into the new thread either way.
   */
  lemma CrossThreadNeverSpeaks(a: Arrival, id: string, e: Engine, turnover: Turnover, setsAside: bool)
    requires turnover.IntoThread? ==>
               turnover.checkpoint.consumed == Recovery.Merge(e.checkpoint.consumed, [id]) && turnover.thread != e.thread
    ensures var e' := AfterTurnover(e, turnover);
            var d := Decide(a, id, e'.thread, e'.checkpoint, setsAside);
            && (a.thread != e'.thread ==>
                  !d.Resume? && (d.NewTurn? <==> e'.checkpoint.terminal && id !in e'.checkpoint.consumed))
            && (turnover.IntoThread? ==> !d.NewTurn? && !d.Resume? && Marks(d) == [])
  {
  }

  lemma StepKeepsInv(w: World, step: Step)
    requires Inv(w) && Can(w, step)
    ensures Inv(After(w, step))
  {
    if step.Deliver? && Gate(w.e, step.arrival).None? {
      var a := step.arrival;
      var e := AfterTurnover(w.e, step.turnover);
      if !e.latched {
        var d := Decide(a, a.id.value, e.thread, e.checkpoint, step.setsAside);
        OnlyFreshIdsSpeak(a, a.id.value, e.thread, e.checkpoint, step.setsAside);
        assert w.e.checkpoint.consumed <= e.checkpoint.consumed;
        if !d.LastResort? && !d.Ignored? {
          EndingKeepsInv(w.(e := e), a, d, step.ending);
        }
      }
    }
  }

  lemma EndingKeepsInv(w: World, a: Arrival, d: Decision, ending: Ending)
    requires Inv(w) && !w.e.latched
    requires UsesWords(d) ==> a.id == Some(d.id) && d.id !in w.e.checkpoint.consumed
    requires d.Resume? ==> d.interrupt in a.interrupts
    requires ending.Uncommitted? ==> w.e.checkpoint.consumed <= ending.left.consumed
    requires ending.Committed? ==> Recovery.Merge(w.e.checkpoint.consumed, Marks(d)) <= ending.left.consumed
    ensures ending.Uncommitted? ==> Inv(w.(e := w.e.(checkpoint := ending.left)))
    ensures ending.Broke? ==> Inv(w.(e := w.e.(checkpoint := ending.left, latched := true)))
    ensures ending.Committed? ==>
              Inv(World(w.e.(checkpoint := ending.left, thread := ending.thread),
                        if UsesWords(d) then w.used + [(a, d)] else w.used))
  {
    forall i | 0 <= i < |w.used|
      ensures UseOk(w.e.(checkpoint := ending.left, latched := ending.Broke?), w.used[i].0, w.used[i].1)
      ensures UsesWords(d) ==> w.used[i].1.id != d.id
    {
      assert UseOk(w.e, w.used[i].0, w.used[i].1);
    }
  }

  /**
   * Over any interleaving of arrivals and turns: no message id is admitted as a caller turn twice,
   * none answers two questions or both speaks and answers, and every answer went to a question its
   * delivery had already seen when it arrived.
   */
  lemma {:induction false} RunKeepsInv(ws: seq<World>, steps: seq<Step>, i: nat)
    requires IsRun(ws, steps) && i < |ws|
    ensures Inv(ws[i])
  {
    if i > 0 {
      RunKeepsInv(ws, steps, i - 1);
      StepKeepsInv(ws[i - 1], steps[i - 1]);
    }
  }

  /** An id found consumed is never used for anything more, in the rest of any run. */
  lemma {:induction false} ConsumedForGood(ws: seq<World>, steps: seq<Step>, i: nat, k: nat, id: string)
    requires IsRun(ws, steps) && i <= k < |ws| && !ws[i].e.latched && id in ws[i].e.checkpoint.consumed
    ensures DoneWith(ws[i].used, ws[k], id)
  {
    DoneFor(ws, steps, i, k, ws[i].used, id);
  }

  lemma {:induction false} DoneFor(ws: seq<World>, steps: seq<Step>, i: nat, k: nat, used: seq<(Arrival, Decision)>, id: string)
    requires IsRun(ws, steps) && i <= k < |ws| && DoneWith(used, ws[i], id)
    ensures DoneWith(used, ws[k], id)
  {
    if i < k {
      DoneFor(ws, steps, i, k - 1, used, id);
      DoneStaysDone(used, ws[k - 1], steps[k - 1], id);
    }
  }

  /** Since `used` was recorded the id stayed consumed, while turns are taken, and was not used again. */
  ghost predicate DoneWith(used: seq<(Arrival, Decision)>, w: World, id: string) {
    (!w.e.latched ==> id in w.e.checkpoint.consumed) && NoMoreUse(used, w.used, id)
  }

  lemma DoneStaysDone(used: seq<(Arrival, Decision)>, w: World, step: Step, id: string)
    requires DoneWith(used, w, id) && Can(w, step)
    ensures DoneWith(used, After(w, step), id)
  {
    ConsumedStays(w, step, id);
    NoMoreUseTransitive(used, w.used, After(w, step).used, id);
  }

  /** The record of uses only grew, and by no use of this id. */
  ghost predicate NoMoreUse(used: seq<(Arrival, Decision)>, later: seq<(Arrival, Decision)>, id: string) {
    used <= later && forall j :: |used| <= j < |later| ==> later[j].0.id != Some(id)
  }

  lemma NoMoreUseTransitive(
      a: seq<(Arrival, Decision)>, b: seq<(Arrival, Decision)>, c: seq<(Arrival, Decision)>, id: string)
    requires NoMoreUse(a, b, id) && NoMoreUse(b, c, id)
    ensures NoMoreUse(a, c, id)
  {
    assert forall j :: 0 <= j < |b| ==> c[j] == b[j];
  }

  lemma ConsumedStays(w: World, step: Step, id: string)
    requires Can(w, step) && (!w.e.latched ==> id in w.e.checkpoint.consumed)
    ensures var w' := After(w, step);
            && (!w'.e.latched ==> !w.e.latched && id in w'.e.checkpoint.consumed)
            && NoMoreUse(w.used, w'.used, id)
  {
    if step.Deliver? && Gate(w.e, step.arrival).None? {
      var a := step.arrival;
      var e := AfterTurnover(w.e, step.turnover);
      assert w.e.checkpoint.consumed <= e.checkpoint.consumed;
      OnlyFreshIdsSpeak(a, a.id.value, e.thread, e.checkpoint, step.setsAside);
    }
  }

  /** A turn never seen before, delivered to a session at rest, is admitted: nothing is lost to the guards. */
  lemma FreshTurnAtRestIsAdmitted(e: Engine, a: Arrival, setsAside: bool)
    requires Gate(e, a).None? && a.thread == e.thread && a.id.value !in e.checkpoint.consumed
    requires e.checkpoint.interrupts == [] && e.checkpoint.marker.None? && !e.checkpoint.next && !e.checkpoint.tasks
    ensures Decide(a, a.id.value, e.thread, e.checkpoint, setsAside) == NewTurn(a.id.value)
  {
  }

  /** A fresh reply to the paused question its delivery had seen is heard as its answer, unless it asks for something else. */
  lemma FreshAnswerIsHeard(e: Engine, a: Arrival, setsAside: bool)
    requires Gate(e, a).None? && a.thread == e.thread && a.id.value !in e.checkpoint.consumed
    requires !e.checkpoint.terminal && e.checkpoint.marker.None? && e.checkpoint.interruptOwned
    requires e.checkpoint.interrupts != [] && e.checkpoint.interrupts[0] in a.interrupts
    ensures Decide(a, a.id.value, e.thread, e.checkpoint, setsAside)
            == if setsAside then NewTurn(a.id.value) else Resume(e.checkpoint.interrupts[0], a.id.value)
  {
  }

  // ---------------------------------------------------------------- every decision, exactly

  /** The gates in front of the dispatch tree, in their order. */
  lemma GateAnswers(e: Engine, a: Arrival)
    ensures Gate(e, a) == Some(SessionClosed) <==> !e.open
    ensures Gate(e, a) == Some(AlreadyTerminal) <==> e.open && e.latched
    ensures Gate(e, a) == Some(MissingId) <==> e.open && !e.latched && a.id == None
    ensures Gate(e, a) == None <==> e.open && !e.latched && a.id.Some?
  {
  }

  /** Without a marker, on a live session: paused at a question, about to go on, or holding a stray task. */
  predicate AtRest(c: Checkpoint) {
    c.interrupts == [] && !c.next && !c.tasks
  }

  /** The reply answers the question that was already there when it arrived. */
  predicate AnswersSeen(a: Arrival, c: Checkpoint) {
    c.interrupts != [] && c.interruptOwned && c.interrupts[0] in a.interrupts
  }

  /** The session cannot be read: its marker is not believed, or an unconsumed message finds it in a state nobody owns. */
  predicate Unreadable(a: Arrival, id: string, thread: Thread, c: Checkpoint) {
    && !c.terminal
    && (if c.marker.Some? then !c.marker.value.accepted
        else
          && id !in c.consumed
          && (if c.interrupts != [] then !c.interruptOwned
              else if a.thread != thread then (c.next || c.tasks) && !c.pristineContinuation
              else if c.next then !c.pristineContinuation
              else c.tasks))
  }

  /** Each decision of the dispatch tree, with the one condition under which it is taken. */
  lemma DecisionIff(a: Arrival, id: string, thread: Thread, c: Checkpoint, setsAside: bool)
    ensures var d := Decide(a, id, thread, c, setsAside);
            var seen := id in c.consumed;
            var here := a.thread == thread;
            var believed := !c.terminal && c.marker.Some? && c.marker.value.accepted;
            var plain := !c.terminal && c.marker.None?;
            && (d == LastResort <==> Unreadable(a, id, thread, c))
            && (d == Ignored <==> seen && (c.terminal || (plain && (!here || c.redelivers != Some(id)))))
            && (d == GoOn <==> seen && (believed || (plain && here && c.redelivers == Some(id))))
            && (d == FallBack(id) <==> !seen && plain && !here && AtRest(c))
            && (d == NewTurn(id) <==>
                  !seen && (|| c.terminal
                            || (believed && here && c.marker.value.abandonedSafeAbort)
                            || (plain && here && (AtRest(c) || (AnswersSeen(a, c) && setsAside)))))
            && (d.Resume? <==> !seen && plain && here && AnswersSeen(a, c) && !setsAside)
            && (d.Resume? ==> d == Resume(c.interrupts[0], id))
            && (d == ConsumeOnly(id) <==>
                  !seen && (|| (believed && !(here && c.marker.value.abandonedSafeAbort))
                            || (plain && c.interrupts != [] && c.interruptOwned && !(here && AnswersSeen(a, c)))
                            || (plain && c.interrupts == [] && c.pristineContinuation && (c.next || (!here && c.tasks)))))
            && (d.NewTurn? || d.ConsumeOnly? || d.FallBack? ==> d.id == id)
            && !d.SessionClosed? && !d.AlreadyTerminal? && !d.MissingId?
  {
  }
}

/**
 Writing one page with concurrent goroutines: a launching loop held back by a semaphore, one
 goroutine per record that writes the vertex and then perhaps the ownership edge, the first error
 canceling the rest, and a wait for all of them. Every step is separate and any order is possible.
 */
module PageWriter {
  import opened Base

  // Where one record's goroutine stands.
  datatype Stage = Unlaunched | AtVertex | AtEdge | Releasing | Exiting | Exited

  datatype Parent = Live | Canceled | LeaseLost

  datatype Verdict = Written | WriteLost | WriteCanceled | WriteFailed

  datatype Main = Launching | Waiting | Returned(verdict: Verdict)

  // A write that took effect.
  datatype Effect = Vertex(i: nat) | Edge(i: nat)

  datatype State = State(
    main: Main, next: nat, stages: seq<Stage>, slots: nat, running: nat,
    parent: Parent, canceled: bool, firstError: bool, effects: seq<Effect>)

  datatype Fault = NoFault | LostBefore | LostAfter

  datatype Page = Page(size: nat, limit: nat, edges: bool)

  datatype Action =
    | Launch | Break | EndLoop | WriteVertex(i: nat, fault: Fault) | WriteEdge(i: nat, fault: Fault)
    | Release(i: nat) | Exit(i: nat) | Interrupt(lost: bool) | Return

  function Start(page: Page): State {
    State(Launching, 0, seq(page.size, _ => Unlaunched), 0, 0, Live, false, false, [])
  }

  // The page's own context is done when the caller's is, or after the first error.
  predicate PageDone(s: State) {
    s.parent != Live || s.canceled
  }

  predicate At(s: State, i: nat, stage: Stage) {
    i < |s.stages| && s.stages[i] == stage
  }

  predicate Enabled(page: Page, s: State, a: Action) {
    match a
    case Launch => s.main == Launching && At(s, s.next, Unlaunched) && s.slots < page.limit
    case Break => s.main == Launching && s.next < |s.stages| && PageDone(s)
    case EndLoop => s.main == Launching && s.next == |s.stages|
    case WriteVertex(i, _) => At(s, i, AtVertex)
    case WriteEdge(i, _) => At(s, i, AtEdge)
    case Release(i) => At(s, i, Releasing) && s.slots > 0
    case Exit(i) => At(s, i, Exiting) && s.running > 0
    case Interrupt(_) => s.parent == Live && !s.main.Returned?
    case Return => s.main == Waiting && s.running == 0
  }

  function Moved(s: State, i: nat, stage: Stage): State
    requires i < |s.stages|
  {
    s.(stages := s.stages[i := stage])
  }

  function AfterWrite(s: State, i: nat, fault: Fault, effect: Effect, stage: Stage): State
    requires i < |s.stages|
  {
    var done := if fault == LostBefore then s else s.(effects := s.effects + [effect]);
    if fault == NoFault then Moved(done, i, stage)
    else Moved(done, i, Releasing).(firstError := true, canceled := true)
  }

  function VerdictOf(s: State): Verdict {
    if s.parent == LeaseLost then WriteLost
    else if s.parent == Canceled then WriteCanceled
    else if s.firstError then WriteFailed
    else Written
  }

  function Step(page: Page, s: State, a: Action): State
    requires Enabled(page, s, a)
  {
    match a
    case Launch => Moved(s, s.next, AtVertex).(next := s.next + 1, slots := s.slots + 1, running := s.running + 1)
    case Break => s.(main := Waiting)
    case EndLoop => s.(main := Waiting)
    case WriteVertex(i, fault) => AfterWrite(s, i, fault, Vertex(i), if page.edges then AtEdge else Releasing)
    case WriteEdge(i, fault) => AfterWrite(s, i, fault, Edge(i), Releasing)
    case Release(i) => Moved(s, i, Exiting).(slots := s.slots - 1)
    case Exit(i) => Moved(s, i, Exited).(running := s.running - 1)
    case Interrupt(lost) => s.(parent := if lost then LeaseLost else Canceled)
    case Return => s.(main := Returned(VerdictOf(s)))
  }

  // ----- counting goroutines -----

  predicate Holding(stage: Stage) {
    stage == AtVertex || stage == AtEdge || stage == Releasing
  }

  predicate Running(stage: Stage) {
    Holding(stage) || stage == Exiting
  }

  function Holders(stages: seq<Stage>): set<nat> {
    set i: nat | i < |stages| && Holding(stages[i])
  }

  function Runners(stages: seq<Stage>): set<nat> {
    set i: nat | i < |stages| && Running(stages[i])
  }

  lemma CountsMove(stages: seq<Stage>, i: nat, stage: Stage)
    requires i < |stages|
    ensures Holders(stages[i := stage]) == if Holding(stage) then Holders(stages) + {i} else Holders(stages) - {i}
    ensures Runners(stages[i := stage]) == if Running(stage) then Runners(stages) + {i} else Runners(stages) - {i}
    ensures (i in Holders(stages) <==> Holding(stages[i])) && (i in Runners(stages) <==> Running(stages[i]))
  {
  }

  // ----- the invariant -----

  function Count(effects: seq<Effect>, e: Effect): nat {
    multiset(effects)[e]
  }

  // What one record's goroutine has written, given where it stands; an error makes it skip the rest.
  ghost predicate RecordOk(page: Page, s: State, i: nat)
    requires i < |s.stages|
  {
    var vertices, edges := Count(s.effects, Vertex(i)), Count(s.effects, Edge(i));
    match s.stages[i]
    case Unlaunched => vertices == 0 && edges == 0
    case AtVertex => vertices == 0 && edges == 0
    case AtEdge => page.edges && vertices == 1 && edges == 0
    case _ =>
      && vertices <= 1 && edges <= vertices
      && (!s.firstError ==> vertices == 1 && edges == if page.edges then 1 else 0)
  }

  // An edge stands in the order of effects only behind its vertex.
  ghost predicate EdgesFollow(effects: seq<Effect>) {
    forall k | 0 <= k < |effects| && effects[k].Edge? :: Vertex(effects[k].i) in effects[..k]
  }

  ghost predicate Launched(page: Page, s: State) {
    && |s.stages| == page.size && s.next <= page.size
    && forall i | 0 <= i < |s.stages| :: s.stages[i] == Unlaunched <==> i >= s.next
  }

  // The semaphore and the wait group count the goroutines they should.
  ghost predicate Counted(page: Page, s: State) {
    s.slots == |Holders(s.stages)| && s.running == |Runners(s.stages)| && s.slots <= page.limit
  }

  ghost predicate Recorded(page: Page, s: State) {
    && (forall i | 0 <= i < |s.stages| :: RecordOk(page, s, i))
    && EdgesFollow(s.effects)
    && (forall e | e in s.effects :: e.i < page.size)
  }

  ghost predicate Steered(page: Page, s: State) {
    && s.canceled == s.firstError
    && (s.main != Launching && s.next < page.size ==> PageDone(s))
    && (s.main.Returned? ==> s.running == 0 && s.main.verdict == VerdictOf(s))
  }

  ghost predicate Inv(page: Page, s: State) {
    Launched(page, s) && Counted(page, s) && Recorded(page, s) && Steered(page, s)
  }

  lemma AppendEffect(effects: seq<Effect>, e: Effect)
    requires EdgesFollow(effects) && (e.Edge? ==> Vertex(e.i) in effects)
    ensures EdgesFollow(effects + [e])
    ensures forall f :: Count(effects + [e], f) == Count(effects, f) + if f == e then 1 else 0
  {
    var all := effects + [e];
    forall k | 0 <= k < |all| && all[k].Edge? ensures Vertex(all[k].i) in all[..k] {
      assert all[..k] == effects[..k];
      if k == |effects| { assert effects[..k] == effects; }
    }
  }

  lemma ReturnedIsIdle(page: Page, s: State, i: nat)
    requires Counted(page, s) && Steered(page, s) && i < |s.stages| && Running(s.stages[i])
    ensures !s.main.Returned? && s.running > 0 && (Holding(s.stages[i]) ==> s.slots > 0)
  {
    assert i in Runners(s.stages);
    assert Holding(s.stages[i]) ==> i in Holders(s.stages);
  }

  lemma StepLaunched(page: Page, s: State, a: Action)
    requires Launched(page, s) && Enabled(page, s, a)
    ensures Launched(page, Step(page, s, a))
  {
  }

  // The goroutine a step moves, and where to.
  function Move(page: Page, s: State, a: Action): Option<(nat, Stage)> {
    match a
    case Launch => Some((s.next, AtVertex))
    case WriteVertex(i, fault) => Some((i, if fault == NoFault && page.edges then AtEdge else Releasing))
    case WriteEdge(i, _) => Some((i, Releasing))
    case Release(i) => Some((i, Exiting))
    case Exit(i) => Some((i, Exited))
    case _ => None
  }

  lemma StepMoves(page: Page, s: State, a: Action)
    requires Enabled(page, s, a)
    ensures match Move(page, s, a)
            case None => Step(page, s, a).stages == s.stages
            case Some((i, stage)) => i < |s.stages| && Step(page, s, a).stages == s.stages[i := stage]
  {
  }

  function One(b: bool): int {
    if b then 1 else 0
  }

  lemma StepCounts(page: Page, s: State, a: Action)
    requires Enabled(page, s, a) && s.slots <= page.limit
    ensures Step(page, s, a).slots <= page.limit
    ensures match Move(page, s, a)
            case None => Step(page, s, a).slots == s.slots && Step(page, s, a).running == s.running
            case Some((i, stage)) =>
              && i < |s.stages|
              && Step(page, s, a).slots == s.slots + One(Holding(stage)) - One(Holding(s.stages[i]))
              && Step(page, s, a).running == s.running + One(Running(stage)) - One(Running(s.stages[i]))
  {
  }

  lemma StepCounted(page: Page, s: State, a: Action)
    requires Counted(page, s) && Enabled(page, s, a)
    ensures Counted(page, Step(page, s, a))
  {
    hide Holders, Runners, Holding, Running, Step, Move, Count;
    StepMoves(page, s, a);
    StepCounts(page, s, a);
    hide Enabled;
    var move := Move(page, s, a);
    if move.Some? { CountsMove(s.stages, move.value.0, move.value.1); }
  }

  lemma StepSteered(page: Page, s: State, a: Action)
    requires Launched(page, s) && Counted(page, s) && Steered(page, s) && Enabled(page, s, a)
    ensures Steered(page, Step(page, s, a))
  {
    var move := Move(page, s, a);
    if move.Some? && !a.Launch? { ReturnedIsIdle(page, s, move.value.0); }
  }

  lemma WriteRecorded(page: Page, s: State, i: nat, fault: Fault, effect: Effect, stage: Stage)
    requires Recorded(page, s) && i < |s.stages| == page.size
    requires (s.stages[i] == AtVertex && effect == Vertex(i) && stage == if page.edges then AtEdge else Releasing)
          || (s.stages[i] == AtEdge && effect == Edge(i) && stage == Releasing)
    ensures Recorded(page, AfterWrite(s, i, fault, effect, stage))
  {
    hide EdgesFollow, AfterWrite, RecordOk, Count;
    var t := AfterWrite(s, i, fault, effect, stage);
    AfterWriteEffects(s, i, fault, effect, stage);
    if effect.Edge? { VertexWritten(page, s, i); }
    AppendEffect(s.effects, effect);
    forall k | 0 <= k < |t.stages| ensures RecordOk(page, t, k) {
      WriteRecordOk(page, s, i, fault, effect, stage, k);
    }
  }

  lemma VertexWritten(page: Page, s: State, i: nat)
    requires i < |s.stages| && s.stages[i] == AtEdge && RecordOk(page, s, i)
    ensures Vertex(i) in s.effects
  {
  }

  lemma AfterWriteEffects(s: State, i: nat, fault: Fault, effect: Effect, stage: Stage)
    requires i < |s.stages|
    ensures var t := AfterWrite(s, i, fault, effect, stage);
            (t.effects == s.effects || t.effects == s.effects + [effect]) && |t.stages| == |s.stages|
  {
  }

  lemma WriteRecordOk(page: Page, s: State, i: nat, fault: Fault, effect: Effect, stage: Stage, k: nat)
    requires i < |s.stages| && k < |s.stages| && RecordOk(page, s, k)
    requires (s.stages[i] == AtVertex && effect == Vertex(i) && stage == if page.edges then AtEdge else Releasing)
          || (s.stages[i] == AtEdge && effect == Edge(i) && stage == Releasing)
    ensures RecordOk(page, AfterWrite(s, i, fault, effect, stage), k)
  {
  }

  lemma StepRecorded(page: Page, s: State, a: Action)
    requires Launched(page, s) && Recorded(page, s) && Enabled(page, s, a)
    ensures Recorded(page, Step(page, s, a))
  {
    match a
    case WriteVertex(i, fault) => WriteRecorded(page, s, i, fault, Vertex(i), if page.edges then AtEdge else Releasing);
    case WriteEdge(i, fault) => WriteRecorded(page, s, i, fault, Edge(i), Releasing);
    case _ => QuietRecorded(page, s, a);
  }

  lemma QuietRecorded(page: Page, s: State, a: Action)
    requires Launched(page, s) && Recorded(page, s) && Enabled(page, s, a) && !a.WriteVertex? && !a.WriteEdge?
    ensures Recorded(page, Step(page, s, a))
  {
    hide EdgesFollow, Count;
    var t := Step(page, s, a);
    assert t.effects == s.effects && t.firstError == s.firstError;
    forall k | 0 <= k < |t.stages| ensures RecordOk(page, t, k) {
      assert RecordOk(page, s, k);
    }
  }

  /** Every step keeps the invariant. */
  lemma StepInv(page: Page, s: State, a: Action)
    requires Inv(page, s) && Enabled(page, s, a)
    ensures Inv(page, Step(page, s, a))
  {
    hide Launched, Counted, Recorded, Steered;
    StepLaunched(page, s, a);
    StepCounted(page, s, a);
    StepRecorded(page, s, a);
    StepSteered(page, s, a);
  }

  // ----- whole executions -----

  ghost predicate Executable(page: Page, s: State, actions: seq<Action>)
    decreases |actions|
  {
    actions == [] || (Enabled(page, s, actions[0]) && Executable(page, Step(page, s, actions[0]), actions[1..]))
  }

  ghost function Execute(page: Page, s: State, actions: seq<Action>): State
    requires Executable(page, s, actions)
    decreases |actions|
  {
    if actions == [] then s else Execute(page, Step(page, s, actions[0]), actions[1..])
  }

  lemma {:induction false} ExecuteInv(page: Page, s: State, actions: seq<Action>)
    requires Inv(page, s) && Executable(page, s, actions)
    ensures Inv(page, Execute(page, s, actions))
    decreases |actions|
  {
    if actions != [] {
      StepInv(page, s, actions[0]);
      ExecuteInv(page, Step(page, s, actions[0]), actions[1..]);
    }
  }

  /** In every reachable state at most the configured number of writes is under way, each record's vertex
      and edge have been written at most once, and no edge was written before its vertex. */
  lemma WritesBounded(page: Page, actions: seq<Action>, i: nat)
    requires Executable(page, Start(page), actions) && i < page.size
    ensures var s := Execute(page, Start(page), actions);
            && |s.stages| == page.size && |Holders(s.stages)| <= page.limit
            && |UnderWay(s.stages)| <= page.limit
            && Count(s.effects, Vertex(i)) <= 1 && Count(s.effects, Edge(i)) <= 1
            && EdgesFollow(s.effects)
  {
    ExecuteInv(page, Start(page), actions);
    var s := Execute(page, Start(page), actions);
    assert RecordOk(page, s, i);
    FewerUnderWay(s.stages);
  }

  // The records whose vertex or edge is being written.
  ghost function UnderWay(stages: seq<Stage>): set<nat> {
    set i: nat | i < |stages| && (stages[i] == AtVertex || stages[i] == AtEdge)
  }

  lemma FewerUnderWay(stages: seq<Stage>)
    ensures |UnderWay(stages)| <= |Holders(stages)|
  {
    assert Holders(stages) == UnderWay(stages) + (Holders(stages) - UnderWay(stages));
  }

  predicate Faulty(a: Action) {
    (a.WriteVertex? || a.WriteEdge?) && a.fault != NoFault
  }

  lemma StepCauses(page: Page, s: State, a: Action)
    requires Enabled(page, s, a)
    ensures var t := Step(page, s, a);
            && (t.firstError <==> s.firstError || Faulty(a))
            && t.parent == if a == Interrupt(true) then LeaseLost
                           else if a == Interrupt(false) then Canceled else s.parent
  {
  }

  // An error stands for a write that went wrong, and the caller's end for an interruption.
  lemma {:induction false} CausesMean(page: Page, s: State, actions: seq<Action>)
    requires Executable(page, s, actions)
    ensures var t := Execute(page, s, actions);
            && (t.firstError <==> s.firstError || exists a | a in actions :: Faulty(a))
            && (t.parent == Live <==> s.parent == Live && forall a | a in actions :: !a.Interrupt?)
            && (t.parent == LeaseLost ==> s.parent == LeaseLost || Interrupt(true) in actions)
            && (t.parent == Canceled ==> s.parent == Canceled || Interrupt(false) in actions)
    decreases |actions|
  {
    if actions != [] {
      var a, rest := actions[0], actions[1..];
      StepCauses(page, s, a);
      CausesMean(page, Step(page, s, a), rest);
      assert forall b :: b in actions <==> b == a || b in rest;
      hide Step, Faulty, Enabled;
    }
  }

  // Exactly the page, each record once: every vertex, every edge if edges are called for, and nothing else.
  ghost predicate WholePage(page: Page, effects: seq<Effect>) {
    && (forall i: nat | i < page.size ::
          Count(effects, Vertex(i)) == 1 && Count(effects, Edge(i)) == if page.edges then 1 else 0)
    && (forall e | e in effects :: e.i < page.size)
  }

  /** The verdict is reported honestly: Written means the whole page, and is given exactly when no write went
      wrong and nobody interrupted; anything else has its cause. */
  lemma VerdictMeans(page: Page, actions: seq<Action>)
    requires Executable(page, Start(page), actions)
    requires Execute(page, Start(page), actions).main.Returned?
    ensures var s := Execute(page, Start(page), actions);
            match s.main.verdict
            case Written =>
              && WholePage(page, s.effects)
              && forall a | a in actions :: !a.Interrupt? && !Faulty(a)
            case WriteLost => Interrupt(true) in actions
            case WriteCanceled => Interrupt(false) in actions
            case WriteFailed => (exists a | a in actions :: Faulty(a)) && forall a | a in actions :: !a.Interrupt?
  {
    var s := Execute(page, Start(page), actions);
    ExecuteInv(page, Start(page), actions);
    CausesMean(page, Start(page), actions);
    if s.main.verdict == Written {
      assert s.next == page.size && Runners(s.stages) == {};
      forall i: nat | i < page.size
        ensures Count(s.effects, Vertex(i)) == 1 && Count(s.effects, Edge(i)) == if page.edges then 1 else 0
      {
        assert RecordOk(page, s, i) && i !in Runners(s.stages) && s.stages[i] != Unlaunched;
      }
    }
  }

  // ----- termination -----

  function Left(stage: Stage): nat {
    match stage
    case Unlaunched => 5
    case AtVertex => 4
    case AtEdge => 3
    case Releasing => 2
    case Exiting => 1
    case Exited => 0
  }

  function Work(stages: seq<Stage>): nat {
    if stages == [] then 0 else Left(stages[0]) + Work(stages[1..])
  }

  lemma {:induction false} WorkMoves(stages: seq<Stage>, i: nat, stage: Stage)
    requires i < |stages|
    ensures Work(stages[i := stage]) == Work(stages) - Left(stages[i]) + Left(stage)
    decreases |stages|
  {
    if i > 0 {
      WorkMoves(stages[1..], i - 1, stage);
      assert stages[i := stage][1..] == stages[1..][i - 1 := stage];
    } else {
      assert stages[i := stage][1..] == stages[1..];
    }
  }

  function Measure(s: State): nat {
    Work(s.stages) + (match s.main case Launching => 2 case Waiting => 1 case Returned(_) => 0)
    + if s.parent == Live then 1 else 0
  }

  /** Every step brings the end nearer, so no execution is longer than the measure at its start... */
  lemma StepDescends(page: Page, s: State, a: Action)
    requires Enabled(page, s, a)
    ensures Measure(Step(page, s, a)) < Measure(s)
  {
    StepMoves(page, s, a);
    hide Work;
    var move := Move(page, s, a);
    if move.Some? { WorkMoves(s.stages, move.value.0, move.value.1); }
  }

  lemma {:induction false} ExecutionsAreShort(page: Page, s: State, actions: seq<Action>)
    requires Executable(page, s, actions)
    ensures |actions| <= Measure(s)
    decreases |actions|
  {
    if actions != [] {
      StepDescends(page, s, actions[0]);
      ExecutionsAreShort(page, Step(page, s, actions[0]), actions[1..]);
    }
  }

  /** ...and until it has returned some step other than an interruption is possible: as long as writes
      return, so does the page. */
  lemma Progress(page: Page, s: State) returns (a: Action)
    requires Inv(page, s) && page.limit > 0 && !s.main.Returned?
    ensures Enabled(page, s, a) && !a.Interrupt?
  {
    if s.main == Launching {
      if s.next == |s.stages| { return EndLoop; }
      if s.slots < page.limit { return Launch; }
      assert Holders(s.stages) != {};
      var i :| i in Holders(s.stages);
      a := Continue(page, s, i);
    } else if s.running == 0 {
      a := Return;
    } else {
      assert Runners(s.stages) != {};
      var i :| i in Runners(s.stages);
      a := Continue(page, s, i);
    }
  }

  lemma Continue(page: Page, s: State, i: nat) returns (a: Action)
    requires Inv(page, s) && i < |s.stages| && Running(s.stages[i])
    ensures Enabled(page, s, a) && !a.Interrupt?
  {
    assert i in Runners(s.stages) && (Holding(s.stages[i]) ==> i in Holders(s.stages));
    match s.stages[i]
    case AtVertex => a := WriteVertex(i, NoFault);
    case AtEdge => a := WriteEdge(i, NoFault);
    case Releasing => a := Release(i);
    case _ => a := Exit(i);
  }
}

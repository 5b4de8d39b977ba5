/** What the table of decisions comes to: when the base director gets through, and
    that no message goes unanswered. */
module DirectorAnswers {
  import opened Common
  import opened Reactor
  import C = Compaction
  import G = CompactionRuns
  import E = CompactionEffects
  import opened Tasks
  import opened Director
  import opened DirectorRuns
  import opened DirectorFlow
  import opened DirectorCycles
  import opened DirectorTable

  // -------------------------------------- the base director's own decision

  /** The coordinator throws at no question of a turn boundary. */
  predicate Composed(event: Inbound, workflow: Workflow) {
    !event.InferenceDone? || !Throwing(workflow)
  }

  /** No guard of the director's own holds: nothing answers the event early; it is
      no rejected call and no echo still nudged; nothing folds and no idle fold is
      armed; no check-in is due with an inference to carry it; no workflow step is
      due, or helpers are at it; and no open tasks are due, or all is spent. */
  predicate Undisturbed(d: Director, event: Inbound, base: seq<Action>, around: Around) {
    && EarlyRoute(d, event, around).None?
    && !(event.ToolDone? && event.plainRejection)
    && var m := MeasurePhase(NoteEvent(PassedOn(d, event), event, around), event, around);
       && !(event.InferenceDone? && event.turn.IsMarkerEcho() && m.budgets.markerEcho < 2)
       && E.FoldOf(m.governor, G.Intercept(Seen(event), base, around.limits)).None?
       && !(E.ArmsIdleTurn(m.governor, G.IdleTurn(Seen(event), base)) && !m.governor.hostClosure)
       && !(m.budgets.toolOnlyPending && Infers(base))
       && (StepDue(m, event, base, around.workflow) ==> !m.operatorResponded && m.liveHelpers > 0)
       && (TasksDue(m, base, around.workflow) ==> !m.allowIdleWithFleet && m.budgets.openTask >= 3)
  }

  lemma EarlyIsOther(d: Director, event: Inbound, around: Around)
    ensures EarlyRoute(d, event, around) != Some(BaseDecision)
  {
  }

  lemma NudgesPass(d: Director, event: Inbound, base: seq<Action>, workflow: Workflow)
    requires Composed(event, workflow)
    ensures NudgeRoute(d, event, base, workflow) == BaseDecision
            <==> && !(d.budgets.toolOnlyPending && Infers(base))
                 && (StepDue(d, event, base, workflow) ==> !d.operatorResponded && d.liveHelpers > 0)
                 && (TasksDue(d, base, workflow) ==> !d.allowIdleWithFleet && d.budgets.openTask >= 3)
  {
    hide StepDue, TasksDue, Infers;
  }

  lemma UndisturbedRoute(d: Director, event: Inbound, around: Around)
    requires around.base.Some? && Composed(event, around.workflow) && !(event.ResumedToolResult? && event.dropped)
    ensures RouteOf(d, event, around) == BaseDecision <==> Undisturbed(d, event, Shown(event, around.base.value), around)
  {
    hide MeasurePhase, NoteEvent, PassedOn, StepDue, TasksDue, NudgeRoute, EarlyRoute;
    var noted := NoteEvent(PassedOn(d, event), event, around);
    MeasureKeeps(noted, event, around);
    NudgesPass(MeasurePhase(noted, event, around), event, Shown(event, around.base.value), around.workflow);
    EarlyIsOther(d, event, around);
  }

  /** The base director's decision gets through exactly when no guard of the
      director's own holds, and then it is settled, with the notices behind it,
      and otherwise as it was; a turn that only echoes the marker has its replies
      withheld. */
  lemma BaseGetsThroughExactly(d: Director, event: Inbound, base: seq<Action>, around: Around)
    requires around.base == Some(base) && Composed(event, around.workflow) && !(event.ResumedToolResult? && event.dropped)
    ensures var decision := Decide(d, event, around).1;
      && (decision.route == BaseDecision <==> Undisturbed(d, event, Shown(event, base), around))
      && (Undisturbed(d, event, Shown(event, base), around) ==>
            decision.actions == Settle(Shown(event, base)) + Emits(d.pending + Pushed(d, event, around)))
  {
    hide RouteOf, Decide, Undisturbed;
    DecisionTable(d, event, around);
    UndisturbedRoute(d, event, around);
  }

  // --------------------------------------------- no message goes unanswered

  lemma NudgesInfer(base: seq<Action>, nudge: Nudge, actions: seq<Action>)
    requires NudgesOver(base, nudge, actions)
    ensures Infers(actions)
  {
    assert actions[|actions| - 1].Infer?;
  }

  lemma SettledStillInfers(actions: seq<Action>, notices: seq<Notice>)
    requires Infers(actions)
    ensures Infers(Settle(actions) + Emits(notices))
  {
    var i :| 0 <= i < |actions| && actions[i].Infer?;
    assert Settle(actions) == actions;
    assert (actions + Emits(notices))[i].Infer?;
  }

  /** What a non-empty message that infers can come to. */
  lemma MessageRoutes(d: Director, content: string, around: Around)
    requires content != "" && around.base.Some? && Infers(around.base.value)
    ensures RouteOf(d, Message(content, Ordinary), around) in
              {IdleFold, PausedFold, CheckInNudge, OperatorAnswered, StepNudge, FleetIdle, OpenTaskNudge, BaseDecision}
  {
    hide StepDue, TasksDue, Infers;
    var event := Message(content, Ordinary);
    MeasureKeeps(NoteEvent(PassedOn(d, event), event, around), event, around);
  }

  /** Over a base that infers, each of these ways infers but for the folds. */
  lemma MessageSends(route: Route, g: C.Governor, event: Inbound, base: seq<Action>, actions: seq<Action>)
    requires event.Message? && Infers(base) && Sends(route, g, event, Some(base), actions)
    requires route in {CheckInNudge, OperatorAnswered, StepNudge, FleetIdle, OpenTaskNudge, BaseDecision}
    ensures Infers(actions)
  {
    if route == StepNudge {
      NudgesInfer(base, WorkflowStep, actions);
    } else if route == OpenTaskNudge {
      NudgesInfer(base, OpenTasks, actions);
    } else if route == CheckInNudge {
      var k :| 0 <= k < |base| && base[k].Infer? && !Infers(base[..k]) && actions == base[k := Infer(CheckIn)];
      assert actions[k].Infer?;
    }
  }

  lemma BareFoldOwes(g: C.Governor, event: Inbound, base: seq<Action>, around: Around)
    ensures var (next, decision) := FoldBase(g, event, base, around);
            decision.Some? && decision.value.route.IsFold() ==> next.debts.infer
  {
  }

  lemma BaseFoldOwes(d: Director, event: Inbound, around: Around)
    ensures var (next, decision) := BasePhase(d, event, around);
            decision.route.IsFold() ==> next.governor.debts.infer
  {
    hide NudgePhase, FoldBase;
    if around.base.Some? {
      var base := Shown(event, around.base.value);
      BareFoldOwes(d.governor, event, base, around);
      NudgePhasePays(d.(governor := FoldBase(d.governor, event, base, around).0), event, around.base.value, base, around);
    }
  }

  lemma OwnFoldOwes(d: Director, event: Inbound, around: Around)
    ensures var (next, decision) := OwnPhase(d, event, around);
            decision.route.IsFold() ==> next.governor.debts.infer
  {
    hide AfterFold, MeasurePhase;
    BaseFoldOwes(MeasurePhase(d, event, around), event, around);
  }

  lemma FoldOwes(d: Director, event: Inbound, around: Around)
    requires event.Message? && event.content != ""
    ensures var (next, decision) := Decide(d, event, around);
            decision.route.IsFold() ==> next.governor.debts.infer
  {
    hide OwnPhase, EarlyPhase, NoteEvent;
    MessageResetsUnlessFolded(d, event, around);
    EarlyOnContent(d, event, around);
    FoldPhaseRoutes(d.governor, event, around);
    InnerIsOwnOnMessage(d, event, around);
    var (next, decision) := DecideInner(d, event, around);
    FinishKeeps(next, decision, event, around);
  }

  lemma InnerIsOwnOnMessage(d: Director, event: Inbound, around: Around)
    requires event.Message? && event.content != ""
    ensures var (next, decision) := DecideInner(d, event, around);
            decision.route.IsFold() ==> next.governor.debts.infer
  {
    hide OwnPhase, NoteEvent;
    EarlyOnContent(d, event, around);
    var (early, decided) := EarlyPhase(d, event, around);
    if decided.None? {
      OwnFoldOwes(NoteEvent(early, event, around), event, around);
    }
  }

  /** Every message with content is answered: over a base director that would
      infer, the decision infers, or it folds and owes the inference. */
  lemma MessageIsAnswered(d: Director, content: string, around: Around)
    requires content != "" && around.base.Some? && Infers(around.base.value)
    ensures var (next, decision) := Decide(d, Message(content, Ordinary), around);
      || Infers(decision.actions)
      || (decision.route.IsFold() && next.governor.debts.infer
          && exists reason :: Compact(reason) in decision.actions)
  {
    hide Decide, RouteOf, Sends, Settle;
    var event := Message(content, Ordinary);
    var decision := Decide(d, event, around).1;
    var notices := d.pending + Pushed(d, event, around);
    DecisionTable(d, event, around);
    MessageRoutes(d, content, around);
    var actions :| Sends(decision.route, d.governor, event, around.base, actions)
                   && decision.actions == Settle(actions) + Emits(notices);
    if decision.route.IsFold() {
      FoldOwes(d, event, around);
      FoldSends(decision.route, d.governor, event, around.base, actions, notices);
    } else {
      MessageSends(decision.route, d.governor, event, around.base.value, actions);
      SettledStillInfers(actions, notices);
    }
  }

  lemma FoldSends(route: Route, g: C.Governor, event: Inbound, base: Option<seq<Action>>,
                  actions: seq<Action>, notices: seq<Notice>)
    requires (route == IdleFold || route == PausedFold) && base.Some? && Sends(route, g, event, base, actions)
    ensures Compact(FoldReason(g)) in Settle(actions) + Emits(notices)
  {
    var fold := Compact(FoldReason(g));
    var k: nat;
    if route == IdleFold {
      k := 0;
    } else {
      var kept :| Picks(Shown(event, base.value), kept, (a: Action) => !a.Infer?)
                  && actions == kept + [fold] + Reentry(g);
      k := |kept|;
    }
    assert actions[k] == fold;
    SettledKeeps(actions, k);
    assert (Settle(actions) + Emits(notices))[k] == fold;
  }

  lemma SettledKeeps(actions: seq<Action>, k: nat)
    requires k < |actions| && actions[k] != Wait
    ensures k < |Settle(actions)| && Settle(actions)[k] == actions[k]
  {
    SettledWaitContinues(actions);
  }

  lemma OwedResume(g: C.Governor, mail: Mail, around: Around)
    requires g.debts.infer
    ensures var (next, decision) := FoldPhase(g, Message("", mail), around);
      if !g.arms.manual && E.BelowCap(g) && FullByEstimate(around.turns, around.limits)
      then decision == Some(Decision(PreflightFold, [Compact(Threshold)] + Reentry(g))) && next.debts.infer
      else decision == Some(Decision(InferResume, [Infer(NoNudge)])) && !next.debts.infer
  {
    assert [] + [Compact(Threshold)] == [Compact(Threshold)];
  }

  lemma NothingToSettle(g: C.Governor)
    ensures Settle([Compact(Threshold)] + Reentry(g)) == [Compact(Threshold)] + Reentry(g)
    ensures Settle([Infer(NoNudge)]) == [Infer(NoNudge)]
  {
  }

  /** An inference owed after a fold is given on the next re-entry: it is started,
      or one more fold owes it. */
  lemma OwedAnswerIsGiven(d: Director, mail: Mail, around: Around)
    requires d.governor.debts.infer
    ensures var (next, decision) := Decide(d, Message("", mail), around);
      if !d.governor.arms.manual && E.BelowCap(d.governor) && FullByEstimate(around.turns, around.limits)
      then decision.route == PreflightFold && next.governor.debts.infer
           && decision.actions == [Compact(Threshold)] + Reentry(d.governor) + Emits(d.pending)
      else decision.actions == [Infer(NoNudge)] + Emits(d.pending) && !next.governor.debts.infer
  {
    hide Decide, FoldPhase, Settle, Emits;
    OwedResume(d.governor, mail, around);
    FoldPhaseDecides(d, Message("", mail), around);
    NothingToSettle(d.governor);
  }
}

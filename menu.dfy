// The navigation table g_menuOps of AVRPowerSupply.cpp, as data. The menu
// interpreter (Menu<MyApp>) is not part of this model; what is modelled is
// the table and the facts about it the interpreter relies on.
module Menu {

  datatype Option<T> = None | Some(value: T)

  /** The flash strings the table shows. */
  datatype Text = Banner | CurLimitTitle | AcceptPrompt | AcceptedNotice

  /** bannerString, curLimit, accept and accepted. */
  function TextOf(t: Text): string
  {
    match t
    case Banner => "AVR Power Supply\n      v0.1"
    case CurLimitTitle => "Cur Limit"
    case AcceptPrompt => "Save? (UP=YES)"
    case AcceptedNotice => "Cur Limit Set"
  }

  /** The MyApp static member functions the table executes (XEQ). */
  datatype Action =
    | Display | NextLine0 | NextLine1 | CurLimit0 | CurLimit1 | AdjustCurLimit
    | ShowCurLimit | IncCurLimit | DecCurLimit | AcceptCurLimit | RejectCurLimit

  /** How a state is left: Buttons(), t0, t1, t2 waits for a press of button
      0, 1 or 2; Goto(t) moves on unconditionally. */
  datatype Exit = Buttons(on0: nat, on1: nat, on2: nat) | Goto(target: nat)

  /** One State(id) entry with the Show, XEQ and Pause opcodes that follow it. */
  datatype MenuState = MenuState(show: Option<Text>, xeq: Option<Action>, pauseMs: Option<nat>, exit: Exit)

  /** The Show(bannerString), Pause(2000) opcodes before State(0). */
  const PreambleText: Text := Banner
  const PreamblePauseMs: nat := 2000

  /** The states of g_menuOps; a state's id is its index. */
  const MenuStates: seq<MenuState> := [
    /*  0 */ MenuState(None, Some(Display), None, Buttons(1, 2, 3)),
    /*  1 */ MenuState(None, Some(NextLine0), None, Goto(0)),
    /*  2 */ MenuState(None, Some(NextLine1), None, Goto(0)),
    /*  3 */ MenuState(Some(CurLimitTitle), None, None, Goto(4)),
    /*  4 */ MenuState(None, Some(CurLimit0), None, Buttons(5, 6, 0)),
    /*  5 */ MenuState(None, Some(CurLimit1), None, Buttons(4, 6, 0)),
    /*  6 */ MenuState(None, Some(AdjustCurLimit), None, Buttons(7, 8, 9)),
    /*  7 */ MenuState(None, Some(IncCurLimit), None, Goto(6)),
    /*  8 */ MenuState(None, Some(DecCurLimit), None, Goto(6)),
    /*  9 */ MenuState(Some(AcceptPrompt), Some(ShowCurLimit), None, Buttons(10, 11, 11)),
    /* 10 */ MenuState(Some(AcceptedNotice), Some(AcceptCurLimit), Some(2000), Goto(0)),
    /* 11 */ MenuState(None, Some(RejectCurLimit), None, Goto(0))
  ]

  type StateId = s: nat | s < 12

  /** The states an exit can lead to. */
  function Targets(e: Exit): set<nat>
  {
    match e
    case Buttons(a, b, c) => {a, b, c}
    case Goto(t) => {t}
  }

  /** Every Buttons and Goto target names a state of the table. */
  lemma TargetsInRange()
    ensures |MenuStates| == 12
    ensures forall s, t :: 0 <= s < |MenuStates| && t in Targets(MenuStates[s].exit) ==> t < |MenuStates|
  {
  }

  /** The state a button press leads to from a state that waits for buttons. */
  function Press(s: StateId, button: nat): (t: StateId)
    requires MenuStates[s].exit.Buttons? && button < 3
    ensures t in Targets(MenuStates[s].exit)
  {
    var e := MenuStates[s].exit;
    if button == 0 then e.on0 else if button == 1 then e.on1 else e.on2
  }

  /** Following Goto exits from s for at most fuel steps: the state that waits
      for buttons where the chain stops, or None if fuel runs out first. */
  function Settle(s: StateId, fuel: nat): Option<StateId>
    decreases fuel
  {
    match MenuStates[s].exit
    case Buttons(_, _, _) => Some(s)
    case Goto(t) => if fuel == 0 then None else Settle(t, fuel - 1)
  }

  /** The XEQ actions executed while entering s and following its Goto chain
      for at most fuel steps, in order. */
  function ChainActions(s: StateId, fuel: nat): seq<Action>
    decreases fuel
  {
    var here := if MenuStates[s].xeq.Some? then [MenuStates[s].xeq.value] else [];
    match MenuStates[s].exit
    case Buttons(_, _, _) => here
    case Goto(t) => if fuel == 0 then here else here + ChainActions(t, fuel - 1)
  }

  /** There are no Goto cycles: every Goto leads straight to a state that
      waits for buttons, so one step always settles, and some states need it. */
  lemma GotoChainsSettle()
    ensures forall s: StateId :: Settle(s, 1).Some? && MenuStates[Settle(s, 1).value].exit.Buttons?
    ensures Settle(1, 0) == None
  {
  }

  /** Once a chain has settled, more fuel changes neither where it stops nor
      what it executes. */
  lemma {:induction false} SettleStable(s: StateId, fuel: nat, more: nat)
    requires Settle(s, fuel).Some?
    ensures Settle(s, fuel + more) == Settle(s, fuel)
    ensures ChainActions(s, fuel + more) == ChainActions(s, fuel)
    decreases fuel
  {
    match MenuStates[s].exit
    case Buttons(_, _, _) =>
    case Goto(t) =>
      SettleStable(t, fuel - 1, more);
  }

  /** The live-readings state 0: button 0 cycles line 0, button 1 cycles line 1,
      each returning to state 0 after its action and Display run once; button 2
      opens the current-limit screens at supply A. */
  lemma LiveReadingsNavigation()
    ensures Settle(Press(0, 0), 1) == Some(0) && ChainActions(Press(0, 0), 1) == [NextLine0, Display]
    ensures Settle(Press(0, 1), 1) == Some(0) && ChainActions(Press(0, 1), 1) == [NextLine1, Display]
    ensures Settle(Press(0, 2), 1) == Some(4) && ChainActions(Press(0, 2), 1) == [CurLimit0]
  {
  }

  /** The adjust state 6: buttons 0 and 1 step the pending limit and come back
      to 6; button 2 asks whether to save, and from there button 0 accepts and
      buttons 1 and 2 reject, both ending in state 0. */
  lemma CurrentLimitNavigation()
    ensures Settle(Press(6, 0), 1) == Some(6) && ChainActions(Press(6, 0), 1) == [IncCurLimit, AdjustCurLimit]
    ensures Settle(Press(6, 1), 1) == Some(6) && ChainActions(Press(6, 1), 1) == [DecCurLimit, AdjustCurLimit]
    ensures Settle(Press(6, 2), 1) == Some(9)
    ensures Settle(Press(9, 0), 1) == Some(0) && ChainActions(Press(9, 0), 1) == [AcceptCurLimit, Display]
    ensures Press(9, 1) == Press(9, 2) == 11
    ensures Settle(11, 1) == Some(0) && ChainActions(11, 1) == [RejectCurLimit, Display]
  {
  }

  /** Only state 10 pauses, after accepting, and the only states that run
      AcceptCurLimit or RejectCurLimit are reached from the save prompt. */
  lemma CommitOnlyFromPrompt()
    ensures forall s: StateId :: MenuStates[s].pauseMs.Some? <==> s == 10
    ensures forall s: StateId, b: nat ::
      MenuStates[s].exit.Buttons? && b < 3 && MenuStates[Press(s, b)].xeq in {Some(AcceptCurLimit), Some(RejectCurLimit)} ==> s == 9
  {
  }
}

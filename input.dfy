/** What the player does, as abstract values: the keys and mouse button held during a
    frame, discrete events, and the session screens those events move between. The
    screen transitions are the same in both builds. */
module Input {

  /** Keys and button held in a frame: `left` is LEFT or A, `right` is RIGHT or D,
      `mouseHeld` is the primary mouse button. */
  datatype Controls = Controls(mouseHeld: bool, left: bool, right: bool)

  type LevelNumber = n: int | 1 <= n <= 3 witness 1

  datatype Key = Space | KeyR | Escape | Return | OtherKey

  /** Where a click lands: the menu title, one of the three level buttons, the restart
      or menu button of the end screens, or none of them. */
  datatype Target = Title | LevelButton(level: LevelNumber) | RestartButton | MenuButton | Elsewhere

  datatype Event = Quit | KeyDown(key: Key) | MouseDown(button: int, target: Target) | OtherEvent

  datatype Screen = Menu | LevelSelect | Playing | GameOver | Victory

  /** The session diagram, independent of any event: Escape or the menu button leads
      back to the menu, the menu leads to level selection, and a game is entered from
      level selection or from an end screen. */
  predicate Edge(s: Screen, t: Screen) {
    || (t == Menu && s != Menu)
    || (s == Menu && t == LevelSelect)
    || (s == LevelSelect && t == Playing)
    || ((s == GameOver || s == Victory) && t == Playing)
  }

  /** A restart (R on game over, or the restart button on either end screen). */
  predicate Restarts(s: Screen, e: Event) {
    || (s == GameOver && e == KeyDown(KeyR))
    || ((s == GameOver || s == Victory) && e.MouseDown? && e.target == RestartButton)
  }

  /** A click on a level button while the level selection is shown. */
  predicate ChoosesLevel(s: Screen, e: Event) {
    s == LevelSelect && e.MouseDown? && e.target.LevelButton?
  }

  /** The screen after one event, as Game.handle_events moves it. */
  function ScreenAfter(s: Screen, e: Event): (t: Screen)
    ensures t == s || Edge(s, t)
    ensures (t == Playing && s != Playing) <==> (Restarts(s, e) || ChoosesLevel(s, e))
    ensures t == GameOver || t == Victory ==> t == s
  {
    match e
    case KeyDown(k) =>
      if k == Space then (if s == Menu then LevelSelect else s)
      else if k == KeyR && s == GameOver then Playing
      else if k == Escape then Menu
      else s
    case MouseDown(_, target) =>
      (match s
       case Menu => if target == Title then LevelSelect else s
       case LevelSelect => if target.LevelButton? then Playing else s
       case GameOver | Victory =>
         if target == RestartButton then Playing
         else if target == MenuButton then Menu
         else s
       case Playing => s)
    case _ => s
  }

  /** Every edge of the diagram is taken by some event. */
  lemma EveryEdgeHasAnEvent(s: Screen, t: Screen)
    requires Edge(s, t)
    ensures exists e :: ScreenAfter(s, e) == t
  {
    if t == Menu {
      assert ScreenAfter(s, KeyDown(Escape)) == t;
    } else if s == Menu {
      assert ScreenAfter(s, KeyDown(Space)) == t;
    } else if s == LevelSelect {
      assert ScreenAfter(s, MouseDown(1, LevelButton(1))) == t;
    } else {
      assert ScreenAfter(s, MouseDown(1, RestartButton)) == t;
    }
  }

  /** The events that handle_events processes: those before the first Quit. */
  function BeforeQuit(es: seq<Event>): (r: seq<Event>)
    ensures |r| <= |es| && r == es[..|r|]
    ensures Quit !in r
    ensures |r| < |es| ==> es[|r|] == Quit
  {
    if es == [] then [] else if es[0] == Quit then [] else [es[0]] + BeforeQuit(es[1..])
  }

  /** The screen after a sequence of events, taken in order. */
  function ScreenAfterAll(s: Screen, es: seq<Event>): Screen
    decreases |es|
  {
    if es == [] then s else ScreenAfterAll(ScreenAfter(s, es[0]), es[1..])
  }

  lemma {:induction false} ScreenAfterAllSnoc(s: Screen, es: seq<Event>, e: Event)
    ensures ScreenAfterAll(s, es + [e]) == ScreenAfter(ScreenAfterAll(s, es), e)
    decreases |es|
  {
    if es != [] {
      assert (es + [e])[1..] == es[1..] + [e];
      ScreenAfterAllSnoc(ScreenAfter(s, es[0]), es[1..], e);
    }
  }

  /** Events alone never end a level: a session reaches game over or victory from
      another screen only through a frame update. */
  lemma {:induction false} EventsNeverEndALevel(s: Screen, es: seq<Event>)
    requires s != GameOver && s != Victory
    ensures ScreenAfterAll(s, es) != GameOver && ScreenAfterAll(s, es) != Victory
    decreases |es|
  {
    if es != [] {
      EventsNeverEndALevel(ScreenAfter(s, es[0]), es[1..]);
    }
  }
}

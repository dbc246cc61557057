/** The navigation of src/components/game-container.tsx: which planets the
    player may fly to next, and the screen record (`space`, `planet`,
    `loading`) that the rocket flights, the adventure button, the question
    generator and the back buttons update.

    A rocket flight is two events here: its launch (the first state update of
    `animateRocket`) and its completion callback, which may arrive at any
    later point. The flight's intermediate positions and its rotation are
    computed with easing curves and `atan2`; they arrive as parameters. */
module GameContainer {
  import opened Wrappers

  datatype Position = Position(x: real, y: real)

  /** A planet of the map: the fields navigation reads (the rest is artwork). */
  datatype Planet = Planet(id: string, name: string, subject: string, connections: seq<string>, position: Position)

  datatype Connection = Connection(from: string, to: string)

  datatype PlanetsData = PlanetsData(planets: seq<Planet>, connections: seq<Connection>)

  datatype Screen = SpaceScreen | PlanetScreen | LoadingScreen

  datatype GameState = GameState(
    currentScreen: Screen,
    currentPlanet: Option<Planet>,
    lastVisitedPlanet: Option<Planet>,
    rocketPosition: Position,
    rocketRotation: real,
    isRocketMoving: bool,
    visitedPlanets: seq<string>)

  /** Where the rocket waits in space. */
  const Launchpad: Position := Position(50.0, 85.0)

  const InitialGame: GameState := GameState(SpaceScreen, None, None, Launchpad, 0.0, false, [])

  // ---------------------------------------------------------------------------
  // getAvailablePlanets

  /** `connections.some(conn => conn.from === from && conn.to === to)`. */
  function HasConnection(connections: seq<Connection>, from: string, to: string): (b: bool)
    ensures b <==> exists c | c in connections :: c.from == from && c.to == to
  {
    if connections == [] then false
    else
      (connections[0].from == from && connections[0].to == to)
      || HasConnection(connections[1..], from, to)
  }

  /** The filter's condition: `planet` is listed among `last`'s connections,
      or a connection of the map runs from `planet` to `last`. */
  predicate Reachable(data: PlanetsData, last: Planet, planet: Planet) {
    planet.id in last.connections || HasConnection(data.connections, planet.id, last.id)
  }

  /** `planets.filter(...)` with that condition. */
  function Filter(data: PlanetsData, last: Planet, ps: seq<Planet>): (r: seq<Planet>)
    ensures |r| <= |ps|
    ensures forall p :: p in r <==> p in ps && Reachable(data, last, p)
  {
    if ps == [] then []
    else (if Reachable(data, last, ps[0]) then [ps[0]] else []) + Filter(data, last, ps[1..])
  }

  /** `a` is `b` with some elements dropped and the rest kept in order. */
  predicate IsSubsequence<T(==)>(a: seq<T>, b: seq<T>)
    decreases |b|
  {
    if a == [] then true
    else if b == [] then false
    else (a[0] == b[0] && IsSubsequence(a[1..], b[1..])) || IsSubsequence(a, b[1..])
  }

  /** Every planet before the first trip; afterwards only those connected to
      the last one visited, in map order. */
  function AvailablePlanets(data: PlanetsData, last: Option<Planet>): (r: seq<Planet>)
    ensures last.None? ==> r == data.planets
    ensures last.Some? ==> forall p :: p in r <==> p in data.planets && Reachable(data, last.value, p)
  {
    match last
    case None => data.planets
    case Some(lastPlanet) => Filter(data, lastPlanet, data.planets)
  }

  lemma {:induction false} FilterExact(data: PlanetsData, last: Planet, ps: seq<Planet>)
    ensures IsSubsequence(Filter(data, last, ps), ps)
    ensures forall p :: multiset(Filter(data, last, ps))[p] ==
                        if Reachable(data, last, p) then multiset(ps)[p] else 0
  {
    if ps != [] {
      FilterExact(data, last, ps[1..]);
      var rest := Filter(data, last, ps[1..]);
      assert ps == [ps[0]] + ps[1..];
      assert multiset(ps) == multiset([ps[0]]) + multiset(ps[1..]);
      if Reachable(data, last, ps[0]) {
        var kept := [ps[0]] + rest;
        assert Filter(data, last, ps) == kept;
        assert kept[0] == ps[0] && kept[1..] == rest;
        assert multiset(kept) == multiset([ps[0]]) + multiset(rest);
      } else {
        assert Filter(data, last, ps) == rest;
      }
    }
  }

  /** The available planets are exactly the map's planets that pass the
      filter, each as often as on the map and in map order; with no planet
      visited yet they are the whole map. */
  lemma AvailableExact(data: PlanetsData, last: Option<Planet>)
    ensures last.None? ==> AvailablePlanets(data, last) == data.planets
    ensures last.Some? ==> IsSubsequence(AvailablePlanets(data, last), data.planets)
    ensures last.Some? ==> forall p :: multiset(AvailablePlanets(data, last))[p] ==
                                      (if Reachable(data, last.value, p) then multiset(data.planets)[p] else 0)
    ensures last.Some? ==> forall p :: p in AvailablePlanets(data, last) <==>
                                      (p in data.planets && Reachable(data, last.value, p))
  {
    if last.Some? {
      FilterExact(data, last.value, data.planets);
    }
  }

  // ---------------------------------------------------------------------------
  // The state updates

  /** The start of `animateRocket`: turn toward the target and start moving. */
  function Launched(g: GameState, rotation: real): (r: GameState)
    ensures r.isRocketMoving && r.rocketRotation == rotation
    ensures r == g.(rocketRotation := rotation, isRocketMoving := true)
  {
    g.(rocketRotation := rotation, isRocketMoving := true)
  }

  /** One animation frame of a flight: the eased position. */
  function Moved(g: GameState, position: Position): (r: GameState)
    ensures r.isRocketMoving && r.rocketPosition == position
    ensures r == g.(rocketPosition := position, isRocketMoving := true)
  {
    g.(rocketPosition := position, isRocketMoving := true)
  }

  /** `handlePlanetSelect`'s completion: land, show the planet, remember it
      and append it to the visited list. */
  function Landed(g: GameState, planet: Planet): (r: GameState)
    ensures !r.isRocketMoving && r.currentScreen == PlanetScreen
    ensures r.currentPlanet == Some(planet) && r.lastVisitedPlanet == Some(planet)
    ensures r.visitedPlanets == g.visitedPlanets + [planet.id]
    ensures r.rocketPosition == g.rocketPosition && r.rocketRotation == g.rocketRotation
  {
    g.(isRocketMoving := false, currentScreen := PlanetScreen, currentPlanet := Some(planet),
       lastVisitedPlanet := Some(planet), visitedPlanets := g.visitedPlanets + [planet.id])
  }

  /** `handleStartAdventure`: only on a planet, switch to the loading screen. */
  function AdventureStarted(g: GameState): (r: GameState)
    ensures g.currentPlanet.None? ==> r == g
    ensures g.currentPlanet.Some? ==> r == g.(currentScreen := LoadingScreen)
  {
    if g.currentPlanet.None? then g else g.(currentScreen := LoadingScreen)
  }

  /** The screen update shared by `handleQuestionsGenerated` and `handleLoadingBack`. */
  function BackToPlanet(g: GameState): (r: GameState)
    ensures r.currentScreen == PlanetScreen && r == g.(currentScreen := PlanetScreen)
  {
    g.(currentScreen := PlanetScreen)
  }

  /** `returnToSpace`'s completion: back in space, on no planet, upright;
      the travel history is kept. */
  function InSpace(g: GameState): (r: GameState)
    ensures !r.isRocketMoving && r.currentScreen == SpaceScreen && r.currentPlanet == None && r.rocketRotation == 0.0
    ensures r.lastVisitedPlanet == g.lastVisitedPlanet && r.visitedPlanets == g.visitedPlanets
    ensures r.rocketPosition == g.rocketPosition
  {
    g.(isRocketMoving := false, currentScreen := SpaceScreen, currentPlanet := None, rocketRotation := 0.0)
  }

  /** A generated question; its answer is an option index. */
  datatype GeneratedQuestion = GeneratedQuestion(question: string, options: seq<string>, correctAnswer: int)

  /** The whole component state: the game record and the quiz overlay. */
  datatype Container = Container(game: GameState, showGameScene: bool, generatedQuestions: seq<GeneratedQuestion>)

  const Initial: Container := Container(InitialGame, false, [])

  /** `handleQuestionsGenerated`: store the questions, open the quiz, show the planet screen. */
  function QuestionsGenerated(c: Container, questions: seq<GeneratedQuestion>): (r: Container)
    ensures r.showGameScene && r.generatedQuestions == questions
    ensures r.game == BackToPlanet(c.game)
  {
    Container(BackToPlanet(c.game), true, questions)
  }

  /** The quiz's `onClose`: hide it and drop the questions. */
  function GameSceneClosed(c: Container): (r: Container)
    ensures !r.showGameScene && r.generatedQuestions == [] && r.game == c.game
  {
    c.(showGameScene := false, generatedQuestions := [])
  }

  // ---------------------------------------------------------------------------
  // Whole sessions

  /** What can happen, in order; flight completions can arrive after anything. */
  datatype Event =
    | Launch(rotation: real)
    | Frame(position: Position)
    | PlanetLanding(planet: Planet)
    | StartAdventure
    | Generated(questions: seq<GeneratedQuestion>)
    | LoadingBack
    | SpaceLanding
    | SceneClosed

  function Apply(c: Container, e: Event): Container {
    match e
    case Launch(rotation) => c.(game := Launched(c.game, rotation))
    case Frame(position) => c.(game := Moved(c.game, position))
    case PlanetLanding(planet) => c.(game := Landed(c.game, planet))
    case StartAdventure => c.(game := AdventureStarted(c.game))
    case Generated(questions) => QuestionsGenerated(c, questions)
    case LoadingBack => c.(game := BackToPlanet(c.game))
    case SpaceLanding => c.(game := InSpace(c.game))
    case SceneClosed => GameSceneClosed(c)
  }

  function Run(c: Container, es: seq<Event>): Container
    decreases |es|
  {
    if es == [] then c else Run(Apply(c, es[0]), es[1..])
  }

  /** The travel history is consistent with the planets: the last planet
      visited is the last id in the list, the planet shown is that one, and
      the loading screen is only ever over a planet. */
  predicate Consistent(g: GameState) {
    && (g.lastVisitedPlanet.Some? <==> |g.visitedPlanets| > 0)
    && (g.lastVisitedPlanet.Some? ==> g.visitedPlanets[|g.visitedPlanets| - 1] == g.lastVisitedPlanet.value.id)
    && (g.currentPlanet.Some? ==> g.currentPlanet == g.lastVisitedPlanet)
    && (g.currentScreen == LoadingScreen ==> g.currentPlanet.Some?)
  }

  /** Along any session the visited list only grows (the old list stays a
      prefix) and the history stays consistent. */
  lemma {:induction false} RunKeepsHistory(c: Container, es: seq<Event>)
    requires Consistent(c.game)
    ensures c.game.visitedPlanets <= Run(c, es).game.visitedPlanets
    ensures Consistent(Run(c, es).game)
    decreases |es|
  {
    if es != [] {
      var c1 := Apply(c, es[0]);
      assert c.game.visitedPlanets <= c1.game.visitedPlanets;
      RunKeepsHistory(c1, es[1..]);
    }
  }

  /** Every session from the first render keeps the history consistent. */
  lemma SessionConsistent(es: seq<Event>)
    ensures Consistent(Run(Initial, es).game)
    ensures |Run(Initial, es).game.visitedPlanets| > 0 <==> Run(Initial, es).game.lastVisitedPlanet.Some?
  {
    RunKeepsHistory(Initial, es);
  }

  lemma RunStep(c: Container, e: Event, es: seq<Event>)
    ensures Run(c, [e] + es) == Run(Apply(c, e), es)
  {
    assert ([e] + es)[1..] == es;
  }

  /** The question generator is never cancelled: after the player backs out
      of the loading screen, a generation still in flight opens the quiz. */
  lemma LateGenerationAfterCancel(planet: Planet, questions: seq<GeneratedQuestion>)
    ensures var r := Run(Initial, [PlanetLanding(planet), StartAdventure, LoadingBack, Generated(questions)]);
      r.showGameScene && r.game.currentScreen == PlanetScreen && r.game.currentPlanet == Some(planet)
  {
    var c1 := Apply(Initial, PlanetLanding(planet));
    var c2 := Apply(c1, StartAdventure);
    var c3 := Apply(c2, LoadingBack);
    RunStep(Initial, PlanetLanding(planet), [StartAdventure, LoadingBack, Generated(questions)]);
    RunStep(c1, StartAdventure, [LoadingBack, Generated(questions)]);
    RunStep(c2, LoadingBack, [Generated(questions)]);
    RunStep(c3, Generated(questions), []);
  }

  /** A flight back to space that lands while questions are being generated
      leaves the planet screen up with no planet on it once they arrive, so
      neither the planet view nor the quiz (both need a planet) is shown. */
  lemma LateGenerationAfterReturn(planet: Planet, questions: seq<GeneratedQuestion>)
    ensures var r := Run(Initial, [PlanetLanding(planet), Launch(0.0), StartAdventure, SpaceLanding, Generated(questions)]);
      r.game.currentScreen == PlanetScreen && r.game.currentPlanet.None? && r.showGameScene
  {
    var c1 := Apply(Initial, PlanetLanding(planet));
    var c2 := Apply(c1, Launch(0.0));
    var c3 := Apply(c2, StartAdventure);
    var c4 := Apply(c3, SpaceLanding);
    RunStep(Initial, PlanetLanding(planet), [Launch(0.0), StartAdventure, SpaceLanding, Generated(questions)]);
    RunStep(c1, Launch(0.0), [StartAdventure, SpaceLanding, Generated(questions)]);
    RunStep(c2, StartAdventure, [SpaceLanding, Generated(questions)]);
    RunStep(c3, SpaceLanding, [Generated(questions)]);
    RunStep(c4, Generated(questions), []);
  }

  // ---------------------------------------------------------------------------
  // The component

  class GameContainer {
    /** `planets.json`. */
    const planetsData: PlanetsData
    var gameState: GameState
    var showGameScene: bool
    var generatedQuestions: seq<GeneratedQuestion>

    function State(): Container
      reads this
    {
      Container(gameState, showGameScene, generatedQuestions)
    }

    constructor (planetsData: PlanetsData)
      ensures this.planetsData == planetsData && State() == Initial
    {
      this.planetsData := planetsData;
      gameState, showGameScene, generatedQuestions := InitialGame, false, [];
    }

    /** `getAvailablePlanets()` on the current state. */
    function Available(): (r: seq<Planet>)
      reads this
      ensures gameState.lastVisitedPlanet.None? ==> r == planetsData.planets
      ensures gameState.lastVisitedPlanet.Some? ==>
        forall p :: p in r <==> p in planetsData.planets && Reachable(planetsData, gameState.lastVisitedPlanet.value, p)
    {
      AvailablePlanets(planetsData, gameState.lastVisitedPlanet)
    }

    /** The start of a flight (to a planet or back to space). */
    method LaunchRocket(rotation: real)
      modifies this
      ensures State() == Apply(old(State()), Launch(rotation))
    {
      gameState := gameState.(rocketRotation := rotation, isRocketMoving := true);
    }

    method RocketFrame(position: Position)
      modifies this
      ensures State() == Apply(old(State()), Frame(position))
    {
      gameState := gameState.(rocketPosition := position, isRocketMoving := true);
    }

    /** The completion callback of `handlePlanetSelect`. */
    method PlanetReached(planet: Planet)
      modifies this
      ensures State() == Apply(old(State()), PlanetLanding(planet))
    {
      gameState := gameState.(isRocketMoving := false, currentScreen := PlanetScreen,
                              currentPlanet := Some(planet), lastVisitedPlanet := Some(planet),
                              visitedPlanets := gameState.visitedPlanets + [planet.id]);
    }

    method HandleStartAdventure()
      modifies this
      ensures State() == Apply(old(State()), StartAdventure)
    {
      if gameState.currentPlanet.None? {
        return;
      }
      gameState := gameState.(currentScreen := LoadingScreen);
    }

    method HandleQuestionsGenerated(questions: seq<GeneratedQuestion>)
      modifies this
      ensures State() == Apply(old(State()), Generated(questions))
    {
      generatedQuestions := questions;
      showGameScene := true;
      gameState := gameState.(currentScreen := PlanetScreen);
    }

    method HandleLoadingBack()
      modifies this
      ensures State() == Apply(old(State()), LoadingBack)
    {
      gameState := gameState.(currentScreen := PlanetScreen);
    }

    /** The completion callback of `returnToSpace`. */
    method SpaceReached()
      modifies this
      ensures State() == Apply(old(State()), SpaceLanding)
    {
      gameState := gameState.(isRocketMoving := false, currentScreen := SpaceScreen,
                              currentPlanet := None, rocketRotation := 0.0);
    }

    method CloseGameScene()
      modifies this
      ensures State() == Apply(old(State()), SceneClosed)
    {
      showGameScene := false;
      generatedQuestions := [];
    }
  }
}

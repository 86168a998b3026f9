/** The topic hub of App.tsx: unlock gating, the visited set, the active popup, the screen
    transitions and restart, wired to the narration engine the hook provides. */
module Hub {
  import opened Types
  import opened Narration
  import opened MainScreen

  /** `isTopicUnlocked`: Temperature always; Composition after Temperature; Neighbors after Composition. */
  predicate IsTopicUnlocked(topic: Topic, visited: set<Topic>)
  {
    match topic
    case Temperature => true
    case Composition => Temperature in visited
    case Neighbors => Composition in visited
  }

  /** The visited sets the hub can reach: the prefixes of Temperature, Composition, Neighbors. */
  predicate VisitedPrefix(visited: set<Topic>)
  {
    || visited == {}
    || visited == {Temperature}
    || visited == {Temperature, Composition}
    || visited == {Temperature, Composition, Neighbors}
  }

  /** The topic the visiting order expects next, if any is left. */
  function NextTopic(visited: set<Topic>): (next: Option<Topic>)
  {
    if Temperature !in visited then Some(Temperature)
    else if Composition !in visited then Some(Composition)
    else if Neighbors !in visited then Some(Neighbors)
    else None
  }

  /** On reachable sets, a topic is unlocked exactly when it was visited already or is the next one. */
  lemma UnlockedIsVisitedOrNext(topic: Topic, visited: set<Topic>)
    requires VisitedPrefix(visited)
    ensures IsTopicUnlocked(topic, visited) <==> topic in visited || NextTopic(visited) == Some(topic)
  {
  }

  /** Selecting an unlocked topic keeps the visited set a prefix. */
  lemma SelectKeepsPrefix(topic: Topic, visited: set<Topic>)
    requires VisitedPrefix(visited) && IsTopicUnlocked(topic, visited)
    ensures VisitedPrefix(visited + {topic})
  {
  }

  /** On reachable sets, the quiz button appears exactly when Neighbors has been visited. */
  lemma QuizButtonIffNeighbors(visited: set<Topic>)
    requires VisitedPrefix(visited)
    ensures Render(visited).quizButton <==> Neighbors in visited
  {
  }

  /** The `narrationKey` of `contentMap`. */
  function PopupNarrationKey(topic: Topic): (k: AudioKey)
    ensures k == TemperatureTopic || k == CompositionTopic || k == NeighborsTopic
    ensures k == TemperatureTopic <==> topic == Temperature
    ensures k == CompositionTopic <==> topic == Composition
    ensures k == NeighborsTopic <==> topic == Neighbors
  {
    match topic
    case Temperature => TemperatureTopic
    case Composition => CompositionTopic
    case Neighbors => NeighborsTopic
  }

  /** Each topic narrates its own clip: Temperature, Composition and Neighbors pair with
      `temperatureTopic`, `compositionTopic` and `neighborsTopic`, and the mapping is one-to-one. */
  lemma PopupNarrationKeyInjective(a: Topic, b: Topic)
    ensures PopupNarrationKey(Temperature) == TemperatureTopic
    ensures PopupNarrationKey(Composition) == CompositionTopic
    ensures PopupNarrationKey(Neighbors) == NeighborsTopic
    ensures PopupNarrationKey(a) == PopupNarrationKey(b) <==> a == b
  {
  }

  /** The `title` of `contentMap`. */
  function PopupTitle(topic: Topic): (title: string)
    ensures title == topic.Title()
  {
    match topic
    case Temperature => "Minha Temperatura"
    case Composition => "Do que sou feito?"
    case Neighbors => "Meus Vizinhos"
  }

  /** The narration key the hub hands to MainScreen. */
  const MainNarrationKey: AudioKey := MainScreenWelcome

  /** The hub always hands MainScreen the same key, so however often the main screen re-renders
      during one mount, its welcome narration is requested exactly once. */
  lemma MainNarrationOncePerMount(keys: seq<AudioKey>)
    requires |keys| > 0 && forall i :: 0 <= i < |keys| ==> keys[i] == MainNarrationKey
    ensures RequestsFrom(None, keys) == [MainNarrationKey]
  {
    SteadyKeyRequestsNothing(MainNarrationKey, keys[1..]);
  }

  /** The object the hook returns: `{ speak, cancel }` and nothing else. */
  const HookResult: map<string, JsValue> := map["speak" := JsFunction, "cancel" := JsFunction]

  /** Destructuring `name` from an object: a name the object lacks reads as `undefined` (`None`). */
  function Member(obj: map<string, JsValue>, name: string): (v: Option<JsValue>)
    ensures v.None? <==> name !in obj
    ensures v.Some? ==> v.value == obj[name]
  {
    if name in obj then Some(obj[name]) else None
  }

  /** `currentScreen === Screen.Quiz ? false : isSpeaking`, read as JavaScript truthiness. */
  function NarratorSpeaking(screen: Screen, isSpeaking: Option<JsValue>): (r: bool)
    ensures screen == Quiz ==> !r
  {
    if screen == Quiz then false else Truthy(isSpeaking)
  }

  /** The sun narrator is handed the `isSpeaking` that App.tsx destructures from the hook's result;
      the hook has no such member, so the value is `undefined` and the narrator never speaks, on
      any screen. */
  lemma NarratorNeverSpeaks(screen: Screen)
    ensures Member(HookResult, "isSpeaking") == None
    ensures !NarratorSpeaking(screen, Member(HookResult, "isSpeaking"))
  {
    assert "isSpeaking" != "speak" && "isSpeaking" != "cancel";
  }

  /** The exception JavaScript raises when a value that is not a function is called. */
  datatype JsError = TypeError(message: string)

  /** Calling the destructured member `name` of an object: only a member that is a function can be called. */
  function CallMember(obj: map<string, JsValue>, name: string): (r: Result<(), JsError>)
    ensures r.Ok? <==> Member(obj, name) == Some(JsFunction)
  {
    if Member(obj, name) == Some(JsFunction) then Ok(()) else Err(TypeError(name + " is not a function"))
  }

  /** The user actions `renderScreen`, `renderPopup` and MainScreen wire to the hub's handlers. */
  datatype Action =
    | SelectTopic(topic: Topic)   // a topic button (handleTopicSelect)
    | ClosePopupAction            // the popup's close button or backdrop (handleClosePopup)
    | SplashDone                  // SplashScreen's onComplete
    | StartQuizAction             // the start-quiz button (handleStartQuiz)
    | QuizDone                    // Quiz's onComplete (handleQuizComplete)
    | RestartAction               // CreditsScreen's onRestart (handleRestart)

  /** Which handler the rendered page offers: an open popup covers the whole page, and otherwise
      each screen offers its own handlers, the quiz button only once all topics are visited. */
  predicate Offered(screen: Screen, popup: Option<Topic>, visited: set<Topic>, a: Action)
  {
    if popup.Some? then a == ClosePopupAction
    else match a
      case SelectTopic(_) => screen == Main
      case ClosePopupAction => false
      case SplashDone => screen == Splash
      case StartQuizAction => screen == Main && Render(visited).quizButton
      case QuizDone => screen == Quiz
      case RestartAction => screen == Credits
  }

  /** The screen after a handler runs; the handlers themselves set their target unconditionally. */
  function ScreenAfter(screen: Screen, a: Action): (after: Screen)
  {
    match a
    case SplashDone => Main
    case StartQuizAction => Quiz
    case QuizDone => Credits
    case RestartAction => Splash
    case _ => screen
  }

  /** Through the page, screens follow the cycle Splash, Main, Quiz, Credits and back to Splash, and
      the quiz is entered only after all three topics are visited. */
  lemma ScreenCycle(screen: Screen, popup: Option<Topic>, visited: set<Topic>, a: Action)
    requires VisitedPrefix(visited) && Offered(screen, popup, visited, a) && ScreenAfter(screen, a) != screen
    ensures screen == Splash ==> ScreenAfter(screen, a) == Main
    ensures screen == Main ==> ScreenAfter(screen, a) == Quiz && visited == AllTopics
    ensures screen == Quiz ==> ScreenAfter(screen, a) == Credits
    ensures screen == Credits ==> ScreenAfter(screen, a) == Splash
  {
  }

  class App {
    var screen: Screen                // currentScreen
    var activePopup: Option<Topic>    // activePopup
    var visited: set<Topic>           // visitedTopics
    const narration: NarrationEngine  // the useNarration hook

    ghost predicate Valid()
      reads this, narration
    {
      narration.Valid() && VisitedPrefix(visited)
    }

    /** The first render: Main when the page address asks to skip the splash, otherwise Splash; no
        popup, nothing visited, and a fresh hook with no context, no cached clip and nothing playing. */
    constructor (skipSplash: bool)
      ensures Valid() && fresh(narration)
      ensures screen == Main <==> skipSplash
      ensures screen == Splash <==> !skipSplash
      ensures activePopup == None && visited == {}
      ensures narration.context == None && narration.cache == map[] && narration.current == None
    {
      screen := if skipSplash then Main else Splash;
      activePopup := None;
      visited := {};
      narration := new NarrationEngine();
    }

    /** `handleTopicSelect`: a locked topic changes nothing; an unlocked one joins the visited set and
        becomes the active popup. */
    method TopicSelect(topic: Topic)
      requires Valid()
      modifies this`visited, this`activePopup
      ensures Valid() && screen == old(screen)
      ensures !IsTopicUnlocked(topic, old(visited)) ==> visited == old(visited) && activePopup == old(activePopup)
      ensures IsTopicUnlocked(topic, old(visited)) ==> visited == old(visited) + {topic} && activePopup == Some(topic)
    {
      if !IsTopicUnlocked(topic, visited) {
        return;
      }
      SelectKeepsPrefix(topic, visited);
      visited := visited + {topic};
      activePopup := Some(topic);
    }

    /** `handleClosePopup` as it is written, for a hook whose result is `hook`: `cancel()` runs, then
        `clearNarration()` is called, and when the hook has no such function that call throws before
        `setActivePopup(null)` is reached. */
    method ClosePopupAsWritten(hook: map<string, JsValue>) returns (thrown: Option<JsError>)
      requires Valid() && Member(hook, "cancel") == Some(JsFunction)
      modifies narration`current, narration`log, narration`silenced, this`activePopup
      ensures Valid() && screen == old(screen) && visited == old(visited)
      ensures narration.current == None
      ensures narration.cache == old(narration.cache) && narration.context == old(narration.context)
      ensures old(narration.current).Some? ==> narration.log == old(narration.log) + [Stop(old(narration.current).value.id)]
      ensures old(narration.current).None? ==> narration.log == old(narration.log)
      ensures thrown.None? <==> Member(hook, "clearNarration") == Some(JsFunction)
      ensures thrown.None? ==> activePopup == None
      ensures thrown.Some? ==> activePopup == old(activePopup)
    {
      narration.Cancel();
      var cleared := CallMember(hook, "clearNarration");
      if cleared.Err? {
        return Some(cleared.error);
      }
      activePopup := None;
      thrown := None;
    }

    /** `handleClosePopup` as intended: stop the narration, then close the popup. */
    method ClosePopup()
      requires Valid()
      modifies narration`current, narration`log, narration`silenced, this`activePopup
      ensures Valid() && screen == old(screen) && visited == old(visited)
      ensures narration.current == None && activePopup == None
      ensures narration.cache == old(narration.cache) && narration.context == old(narration.context)
      ensures old(narration.current).Some? ==> narration.log == old(narration.log) + [Stop(old(narration.current).value.id)]
      ensures old(narration.current).None? ==> narration.log == old(narration.log)
    {
      narration.Cancel();
      activePopup := None;
    }

    /** SplashScreen's `onComplete`, as App.tsx wires it when rendering the splash. */
    method SplashComplete()
      requires Valid()
      modifies this`screen
      ensures Valid() && screen == ScreenAfter(old(screen), SplashDone) && screen == Main
    {
      screen := Main;
    }

    /** `handleStartQuiz`. */
    method StartQuiz()
      requires Valid()
      modifies this`screen
      ensures Valid() && screen == ScreenAfter(old(screen), StartQuizAction) && screen == Quiz
    {
      screen := Quiz;
    }

    /** `handleQuizComplete`. */
    method QuizComplete()
      requires Valid()
      modifies this`screen
      ensures Valid() && screen == ScreenAfter(old(screen), QuizDone) && screen == Credits
    {
      screen := Credits;
    }

    /** `handleRestart`: nothing visited, no popup, back to the splash. The narration is left alone. */
    method Restart()
      requires Valid()
      modifies this`visited, this`activePopup, this`screen
      ensures Valid() && screen == ScreenAfter(old(screen), RestartAction)
      ensures visited == {} && activePopup == None && screen == Splash
    {
      visited := {};
      activePopup := None;
      screen := Splash;
    }

    /** App's unmount effect: stop the narration. */
    method Unmount()
      requires Valid()
      modifies narration`current, narration`log, narration`silenced
      ensures Valid() && narration.current == None
      ensures narration.cache == old(narration.cache) && narration.context == old(narration.context)
      ensures old(narration.current).Some? ==> narration.log == old(narration.log) + [Stop(old(narration.current).value.id)]
      ensures old(narration.current).None? ==> narration.log == old(narration.log)
    {
      narration.Cancel();
    }
  }

  /** With the corrected close handler (`ClosePopup`) every prefix is reachable: visiting the topics
      in order, closing each popup, visits all of them. */
  method VisitAllTopics(app: App)
    requires app.Valid() && app.visited == {}
    modifies app, app.narration
    ensures app.Valid() && app.visited == AllTopics && app.activePopup == Some(Neighbors)
  {
    app.TopicSelect(Temperature);
    app.ClosePopup();
    app.TopicSelect(Composition);
    app.ClosePopup();
    app.TopicSelect(Neighbors);
  }

  /** With the handler as written and the hook's actual result, once a popup is open no click
      closes it: every click throws `TypeError`. */
  method PopupStaysOpen(app: App)
    requires app.Valid() && app.visited == {}
    modifies app, app.narration
    ensures app.activePopup == Some(Temperature) && app.visited == {Temperature}
  {
    app.TopicSelect(Temperature);
    assert "clearNarration" !in HookResult;
    var first := app.ClosePopupAsWritten(HookResult);
    assert first.Some?;
    var second := app.ClosePopupAsWritten(HookResult);
    assert second.Some?;
  }
}

/** The hub screen of components/MainScreen.tsx as a pure view of its props: three topic buttons,
    the start-quiz button and the narration it requests. */
module MainScreen {
  import opened Types

  /** A rendered topic button: its topic, its visited styling and the topic its click selects. */
  datatype TopicButton = TopicButton(topic: Topic, isVisited: bool, selects: Topic)

  /** The rendered screen. */
  datatype View = View(buttons: seq<TopicButton>, quizButton: bool)

  const AllTopics: set<Topic> := {Temperature, Composition, Neighbors}

  /** `visitedTopics.size === 3`. */
  predicate AllTopicsVisited(visited: set<Topic>)
  {
    |visited| == 3
  }

  /** Three visited topics are all of them. */
  lemma AllTopicsVisitedMeansAll(visited: set<Topic>)
    ensures AllTopicsVisited(visited) <==> visited == AllTopics
  {
    var rebuilt := (if Temperature in visited then {Temperature} else {})
                 + (if Composition in visited then {Composition} else {})
                 + (if Neighbors in visited then {Neighbors} else {});
    assert visited == rebuilt by {
      forall t | t in visited ensures t in rebuilt {
        assert t.Temperature? || t.Composition? || t.Neighbors?;
      }
    }
  }

  /** The component's markup: the buttons in order Temperature, Composition, Neighbors, each styled
      by membership in `visited` and selecting its own topic with no lock check of its own, and the
      quiz button present only once all topics are visited. */
  function Render(visited: set<Topic>): (v: View)
    ensures |v.buttons| == 3
    ensures v.buttons[0].topic == Temperature && v.buttons[1].topic == Composition && v.buttons[2].topic == Neighbors
    ensures forall i :: 0 <= i < 3 ==> (v.buttons[i].isVisited <==> v.buttons[i].topic in visited)
    ensures forall i :: 0 <= i < 3 ==> v.buttons[i].selects == v.buttons[i].topic
    ensures v.quizButton <==> visited == AllTopics
  {
    AllTopicsVisitedMeansAll(visited);
    View([Button(Temperature, visited), Button(Composition, visited), Button(Neighbors, visited)],
         AllTopicsVisited(visited))
  }

  /** The button of one topic: styled visited iff the topic is in the visited set, and selecting that topic. */
  function Button(topic: Topic, visited: set<Topic>): (b: TopicButton)
  {
    TopicButton(topic, topic in visited, topic)
  }

  /** The mount effect keyed on `narrationKey`: it asks for narration on the first render
      (`previous == None`) and whenever the key differs from the one of the previous render. */
  function NarrationRequests(previous: Option<AudioKey>, narrationKey: AudioKey): (r: seq<AudioKey>)
    ensures |r| <= 1
    ensures r == [] <==> previous == Some(narrationKey)
    ensures forall k :: k in r ==> k == narrationKey
  {
    if previous == Some(narrationKey) then [] else [narrationKey]
  }

  /** The requests made over a sequence of renders whose keys are `keys`, `previous` being the key
      of the render before them (`None` before the first). */
  function RequestsFrom(previous: Option<AudioKey>, keys: seq<AudioKey>): (r: seq<AudioKey>)
    ensures |r| <= |keys|
    decreases |keys|
  {
    if keys == [] then [] else NarrationRequests(previous, keys[0]) + RequestsFrom(Some(keys[0]), keys[1..])
  }

  /** Reference definition: a render history with each run of equal consecutive keys collapsed to
      one key, built from the last render backwards. */
  function Collapse(keys: seq<AudioKey>): (collapsed: seq<AudioKey>)
  {
    if keys == [] then []
    else if |keys| >= 2 && keys[|keys| - 1] == keys[|keys| - 2] then Collapse(keys[..|keys| - 1])
    else Collapse(keys[..|keys| - 1]) + [keys[|keys| - 1]]
  }

  /** The key of the last render of `keys`, or `previous` when there is none. */
  function LastKey(previous: Option<AudioKey>, keys: seq<AudioKey>): (last: Option<AudioKey>)
  {
    if keys == [] then previous else Some(keys[|keys| - 1])
  }

  /** One more render adds the requests of that render alone. */
  lemma {:induction false} RequestsFromSnoc(previous: Option<AudioKey>, keys: seq<AudioKey>, k: AudioKey)
    ensures RequestsFrom(previous, keys + [k]) == RequestsFrom(previous, keys) + NarrationRequests(LastKey(previous, keys), k)
    decreases |keys|
  {
    if keys == [] {
      assert RequestsFrom(Some(k), []) == [];
      assert ([] + [k])[1..] == [];
    } else {
      assert (keys + [k])[0] == keys[0];
      assert (keys + [k])[1..] == keys[1..] + [k];
      RequestsFromSnoc(Some(keys[0]), keys[1..], k);
      assert LastKey(Some(keys[0]), keys[1..]) == LastKey(previous, keys);
    }
  }

  /** Over a whole mount, narration is requested for the first key and for every key that differs
      from the key of the render before it, and for nothing else. */
  lemma {:induction false} RequestsCollapseHistory(keys: seq<AudioKey>)
    ensures RequestsFrom(None, keys) == Collapse(keys)
    decreases |keys|
  {
    if keys != [] {
      var init, k := keys[..|keys| - 1], keys[|keys| - 1];
      assert keys == init + [k];
      RequestsCollapseHistory(init);
      RequestsFromSnoc(None, init, k);
    }
  }

  /** Renders that all carry the key of the render before them request nothing. */
  lemma {:induction false} SteadyKeyRequestsNothing(k: AudioKey, keys: seq<AudioKey>)
    requires forall i :: 0 <= i < |keys| ==> keys[i] == k
    ensures RequestsFrom(Some(k), keys) == []
    decreases |keys|
  {
    if keys != [] {
      SteadyKeyRequestsNothing(k, keys[1..]);
    }
  }
}

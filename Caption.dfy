/** The caption synchroniser of components/SyncedCaption.tsx: a pure derivation from the word timings
    and the playback time to the words shown and the word highlighted. Times are only compared, so
    they are `real` seconds. */
module Caption {
  import opened Types

  /** One timed word: its text and the interval `[start, end)` in which it is spoken. */
  datatype WordTiming = WordTiming(word: string, start: real, end: real)

  /** One rendered word: its text and whether it carries the highlight style. */
  datatype Span = Span(word: string, highlighted: bool)

  /** What the component renders: the plain full text, or a sequence of word spans. */
  datatype Caption = FullText(text: string) | Words(spans: seq<Span>)

  /** A timing is revealed once its start has been reached. */
  predicate Revealed(w: WordTiming, t: real)
  {
    t >= w.start
  }

  /** A timing is being spoken when `start <= t < end`. */
  predicate Active(w: WordTiming, t: real)
  {
    t >= w.start && t < w.end
  }

  /** `wordTimings.filter(timing => currentTime >= timing.start)`. */
  function VisibleWords(ts: seq<WordTiming>, t: real): (r: seq<WordTiming>)
    ensures |r| <= |ts|
  {
    if ts == [] then []
    else if Revealed(ts[0], t) then [ts[0]] + VisibleWords(ts[1..], t)
    else VisibleWords(ts[1..], t)
  }

  /** `wordTimings.find(timing => currentTime >= timing.start && currentTime < timing.end)`:
      the first active timing, if any. */
  function CurrentWord(ts: seq<WordTiming>, t: real): (r: Option<WordTiming>)
    ensures r.None? <==> forall i :: 0 <= i < |ts| ==> !Active(ts[i], t)
    ensures r.Some? ==> exists i :: 0 <= i < |ts| && ts[i] == r.value && Active(ts[i], t)
                                    && forall j :: 0 <= j < i ==> !Active(ts[j], t)
  {
    if ts == [] then None
    else if Active(ts[0], t) then Some(ts[0])
    else
      var r := CurrentWord(ts[1..], t);
      assert forall i :: 1 <= i < |ts| ==> ts[i] == ts[1..][i - 1];
      if r.Some? then
        var i :| 0 <= i < |ts[1..]| && ts[1..][i] == r.value && Active(ts[1..][i], t)
                 && forall j :: 0 <= j < i ==> !Active(ts[1..][j], t);
        assert ts[i + 1] == r.value && forall j :: 0 <= j < i + 1 ==> !Active(ts[j], t);
        r
      else r
  }

  /** The class test SyncedCaption.tsx applies to each word span: a span is highlighted when a current word exists and has the same text. */
  predicate Highlighted(current: Option<WordTiming>, w: WordTiming)
  {
    current.Some? && current.value.word == w.word
  }

  /** One span per visible word, in order, each carrying its word and its highlight. */
  function Spans(visible: seq<WordTiming>, current: Option<WordTiming>): (r: seq<Span>)
    ensures |r| == |visible|
    ensures forall i :: 0 <= i < |r| ==> r[i] == Span(visible[i].word, Highlighted(current, visible[i]))
  {
    if visible == [] then []
    else [Span(visible[0].word, Highlighted(current, visible[0]))] + Spans(visible[1..], current)
  }

  /** The component: with no timings the full text, otherwise one span per visible word. */
  function Render(ts: seq<WordTiming>, t: real, fullText: string): (r: Caption)
    ensures ts == [] <==> r == FullText(fullText)
    ensures ts != [] ==> r.Words? && |r.spans| == |VisibleWords(ts, t)|
    ensures ts != [] ==> forall i :: 0 <= i < |r.spans| ==>
              r.spans[i].word == VisibleWords(ts, t)[i].word
              && (r.spans[i].highlighted <==> CurrentWord(ts, t).Some? && CurrentWord(ts, t).value.word == r.spans[i].word)
  {
    if ts == [] then FullText(fullText)
    else Words(Spans(VisibleWords(ts, t), CurrentWord(ts, t)))
  }

  /** `sub` keeps some of the elements of `s`, in their order. */
  predicate IsSubsequence<T(==)>(sub: seq<T>, s: seq<T>)
  {
    if sub == [] then true
    else if s == [] then false
    else if sub[0] == s[0] then IsSubsequence(sub[1..], s[1..])
    else IsSubsequence(sub, s[1..])
  }

  /** The visible words are exactly the revealed timings, in order and with their multiplicity:
      an order-preserving subsequence that keeps every revealed timing and nothing else. */
  lemma {:induction false} VisibleWordsIsFilter(ts: seq<WordTiming>, t: real)
    ensures IsSubsequence(VisibleWords(ts, t), ts)
    ensures forall w :: w in VisibleWords(ts, t) <==> w in ts && Revealed(w, t)
    ensures forall w :: multiset(VisibleWords(ts, t))[w] == if Revealed(w, t) then multiset(ts)[w] else 0
  {
    if ts != [] {
      VisibleWordsIsFilter(ts[1..], t);
      assert ts == [ts[0]] + ts[1..];
      assert multiset(ts) == multiset{ts[0]} + multiset(ts[1..]);
      if Revealed(ts[0], t) {
        assert VisibleWords(ts, t)[1..] == VisibleWords(ts[1..], t);
      } else {
        SubsequenceOfTail(VisibleWords(ts, t), ts);
      }
    }
  }

  /** A subsequence of the tail is a subsequence of the whole. */
  lemma {:induction false} SubsequenceOfTail<T>(sub: seq<T>, s: seq<T>)
    requires s != [] && IsSubsequence(sub, s[1..])
    ensures IsSubsequence(sub, s)
  {
    if sub != [] && sub[0] == s[0] {
      SubsequenceDropHead(sub, s[1..]);
    }
  }

  /** Dropping the first element of a subsequence keeps it a subsequence. */
  lemma {:induction false} SubsequenceDropHead<T>(sub: seq<T>, s: seq<T>)
    requires sub != [] && IsSubsequence(sub, s)
    ensures IsSubsequence(sub[1..], s)
  {
    if s != [] && sub[0] != s[0] {
      SubsequenceDropHead(sub, s[1..]);
      SubsequenceOfTail(sub[1..], s);
    } else if s != [] {
      SubsequenceOfTail(sub[1..], s);
    }
  }

  /** Revealing at an earlier time and then at a later one is the same as revealing at the earlier one. */
  lemma {:induction false} VisibleWordsNested(ts: seq<WordTiming>, t1: real, t2: real)
    requires t1 <= t2
    ensures VisibleWords(VisibleWords(ts, t2), t1) == VisibleWords(ts, t1)
  {
    if ts != [] {
      VisibleWordsNested(ts[1..], t1, t2);
      if Revealed(ts[0], t2) {
        assert VisibleWords(ts, t2)[0] == ts[0];
        assert VisibleWords(ts, t2)[1..] == VisibleWords(ts[1..], t2);
      }
    }
  }

  /** Reveal monotonicity: as time advances, the visible words only grow. What is shown at `t1` is
      an order-preserving part of what is shown at a later `t2`, and every word shown stays shown. */
  lemma RevealMonotonic(ts: seq<WordTiming>, t1: real, t2: real)
    requires t1 <= t2
    ensures IsSubsequence(VisibleWords(ts, t1), VisibleWords(ts, t2))
    ensures forall w :: w in VisibleWords(ts, t1) ==> w in VisibleWords(ts, t2)
  {
    VisibleWordsNested(ts, t1, t2);
    VisibleWordsIsFilter(VisibleWords(ts, t2), t1);
    VisibleWordsIsFilter(ts, t1);
    VisibleWordsIsFilter(ts, t2);
  }

  /** The timings are ordered by start. */
  predicate SortedByStart(ts: seq<WordTiming>)
  {
    forall i, j :: 0 <= i < j < |ts| ==> ts[i].start <= ts[j].start
  }

  /** With the timings ordered by start, the visible words are a prefix of the timings. */
  lemma {:induction false} SortedVisibleIsPrefix(ts: seq<WordTiming>, t: real)
    requires SortedByStart(ts)
    ensures VisibleWords(ts, t) == ts[..|VisibleWords(ts, t)|]
  {
    if ts != [] {
      assert SortedByStart(ts[1..]) by {
        forall i, j | 0 <= i < j < |ts[1..]| ensures ts[1..][i].start <= ts[1..][j].start {
          assert ts[1..][i] == ts[i + 1] && ts[1..][j] == ts[j + 1];
        }
      }
      SortedVisibleIsPrefix(ts[1..], t);
      if !Revealed(ts[0], t) {
        NoneRevealed(ts, t);
      }
    }
  }

  /** When the first of sorted timings is not revealed, none is. */
  lemma {:induction false} NoneRevealed(ts: seq<WordTiming>, t: real)
    requires SortedByStart(ts) && ts != [] && !Revealed(ts[0], t)
    ensures VisibleWords(ts, t) == []
  {
    if |ts| > 1 {
      assert SortedByStart(ts[1..]) by {
        forall i, j | 0 <= i < j < |ts[1..]| ensures ts[1..][i].start <= ts[1..][j].start {
          assert ts[1..][i] == ts[i + 1] && ts[1..][j] == ts[j + 1];
        }
      }
      assert ts[0].start <= ts[1].start;
      NoneRevealed(ts[1..], t);
    }
  }

  /** The current word, when there is one, is among the visible words. */
  lemma CurrentWordIsVisible(ts: seq<WordTiming>, t: real)
    ensures CurrentWord(ts, t).Some? ==> CurrentWord(ts, t).value in VisibleWords(ts, t)
  {
    VisibleWordsIsFilter(ts, t);
  }

  /** The timings' texts are pairwise distinct. */
  predicate DistinctWords(ts: seq<WordTiming>)
  {
    forall i, j :: 0 <= i < j < |ts| ==> ts[i].word != ts[j].word
  }

  /** With distinct texts, at most one rendered span is highlighted. */
  lemma AtMostOneHighlighted(ts: seq<WordTiming>, t: real, fullText: string)
    requires DistinctWords(ts)
    ensures Render(ts, t, fullText).Words? ==>
              forall i, j :: 0 <= i < j < |Render(ts, t, fullText).spans| ==>
                !(Render(ts, t, fullText).spans[i].highlighted && Render(ts, t, fullText).spans[j].highlighted)
  {
    if ts != [] {
      var v := VisibleWords(ts, t);
      VisibleWordsIsFilter(ts, t);
      DistinctSubsequence(v, ts);
    }
  }

  /** A subsequence of timings with distinct texts has distinct texts. */
  lemma {:induction false} DistinctSubsequence(sub: seq<WordTiming>, s: seq<WordTiming>)
    requires IsSubsequence(sub, s) && DistinctWords(s)
    ensures DistinctWords(sub)
  {
    if sub != [] && s != [] {
      assert DistinctWords(s[1..]) by {
        forall i, j | 0 <= i < j < |s[1..]| ensures s[1..][i].word != s[1..][j].word {
          assert s[1..][i] == s[i + 1] && s[1..][j] == s[j + 1];
        }
      }
      if sub[0] == s[0] {
        DistinctSubsequence(sub[1..], s[1..]);
        SubsequenceElements(sub[1..], s[1..]);
        forall j | 0 < j < |sub| ensures sub[0].word != sub[j].word {
          assert sub[j] == sub[1..][j - 1] && sub[j] in sub[1..];
          assert sub[j] in s[1..];
          var k :| 0 <= k < |s[1..]| && s[1..][k] == sub[j];
          assert s[k + 1] == sub[j];
        }
        forall i, j | 0 <= i < j < |sub| ensures sub[i].word != sub[j].word {
          if i > 0 {
            assert sub[i] == sub[1..][i - 1] && sub[j] == sub[1..][j - 1];
          }
        }
      } else {
        DistinctSubsequence(sub, s[1..]);
      }
    }
  }

  /** Every element of a subsequence is an element of the sequence. */
  lemma {:induction false} SubsequenceElements<T>(sub: seq<T>, s: seq<T>)
    requires IsSubsequence(sub, s)
    ensures forall x :: x in sub ==> x in s
  {
    if sub != [] && s != [] {
      if sub[0] == s[0] {
        SubsequenceElements(sub[1..], s[1..]);
        assert forall x :: x in sub ==> x == sub[0] || x in sub[1..];
      } else {
        SubsequenceElements(sub, s[1..]);
      }
    }
  }

  /** Highlighting goes by text, not by timing: a repeated word lights up every visible occurrence. */
  lemma RepeatedWordHighlightsTwice()
    ensures Render([WordTiming("sol", 0.0, 1.0), WordTiming("sol", 2.0, 3.0)], 2.5, "sol sol")
            == Words([Span("sol", true), Span("sol", true)])
  {
    var ts := [WordTiming("sol", 0.0, 1.0), WordTiming("sol", 2.0, 3.0)];
    assert VisibleWords(ts, 2.5) == ts by {
      assert ts[1..] == [WordTiming("sol", 2.0, 3.0)];
    }
    assert CurrentWord(ts, 2.5) == Some(WordTiming("sol", 2.0, 3.0)) by {
      assert ts[1..] == [WordTiming("sol", 2.0, 3.0)];
    }
  }

  /** Two abutting words at 2.0 seconds: both are shown and the second is highlighted. */
  lemma TwoWordsScenario()
    ensures Render([WordTiming("Olá,", 0.0, 1.5), WordTiming("mundo!", 1.5, 3.0)], 2.0, "Olá, mundo!")
            == Words([Span("Olá,", false), Span("mundo!", true)])
  {
    var ts := [WordTiming("Olá,", 0.0, 1.5), WordTiming("mundo!", 1.5, 3.0)];
    assert ts[1..] == [WordTiming("mundo!", 1.5, 3.0)];
    assert VisibleWords(ts, 2.0) == ts;
    assert CurrentWord(ts, 2.0) == Some(WordTiming("mundo!", 1.5, 3.0));
  }
}

/** The playback state that `run` in src/js/main.js keeps in two closure
    variables, `playing` and `analyser`, and the events that change it: a
    click on the play button (which builds the analyser if there is none and
    starts `audio.play()`), the settling of that play request, and the
    audio element's `ended` event. */
module Playback {

  datatype Event =
    | Click          // the click handler up to its `await audio.play()`
    | PlayResolved   // `audio.play()` resolved: the handler resumes and sets `playing`
    | PlayRejected   // `audio.play()` rejected: the handler ends with the error
    | Ended          // the audio element's `ended` event

  /** `pendingPlays` counts the play requests that have not settled yet. */
  datatype State = State(playing: bool, analyserCreated: bool, pendingPlays: nat)

  const Initial: State := State(false, false, 0)

  /** Playing, or waiting for a play request, implies that the analyser exists. */
  predicate Invariant(s: State)
  {
    (s.playing || s.pendingPlays > 0) ==> s.analyserCreated
  }

  /** A play request can only settle after one was made. */
  predicate Enabled(s: State, e: Event)
  {
    (e == PlayResolved || e == PlayRejected) ==> s.pendingPlays > 0
  }

  /** One event. `playing` turns true only when a play request resolves and
      false only on `ended`; the analyser, once built, is kept. */
  function Next(s: State, e: Event): (t: State)
    requires Enabled(s, e)
    ensures !s.playing && t.playing ==> e == PlayResolved
    ensures s.playing && !t.playing ==> e == Ended
    ensures s.analyserCreated ==> t.analyserCreated
    ensures Invariant(s) ==> Invariant(t)
  {
    match e
    case Click => State(s.playing, true, s.pendingPlays + 1)
    case PlayResolved => State(true, s.analyserCreated, s.pendingPlays - 1)
    case PlayRejected => State(s.playing, s.analyserCreated, s.pendingPlays - 1)
    case Ended => State(false, s.analyserCreated, s.pendingPlays)
  }

  /** Whether handling `e` in state `s` builds an analyser (`analyser || Analyzer(audio)`). */
  predicate Builds(s: State, e: Event)
  {
    e == Click && !s.analyserCreated
  }

  /** Every event of `events` can happen, one after the other, from `s`. */
  predicate Feasible(s: State, events: seq<Event>)
    decreases |events|, 0
  {
    events == [] ||
    (Feasible(s, events[..|events| - 1]) && Enabled(Run(s, events[..|events| - 1]), events[|events| - 1]))
  }

  /** The state after handling `events` from `s`. */
  function Run(s: State, events: seq<Event>): State
    requires Feasible(s, events)
    decreases |events|, 1
  {
    if events == [] then s
    else Next(Run(s, events[..|events| - 1]), events[|events| - 1])
  }

  /** How many of `events` build an analyser. */
  function BuildCount(s: State, events: seq<Event>): nat
    requires Feasible(s, events)
    decreases |events|
  {
    if events == [] then 0
    else
      var before := events[..|events| - 1];
      BuildCount(s, before) + if Builds(Run(s, before), events[|events| - 1]) then 1 else 0
  }

  /** Every reachable state satisfies the invariant. */
  lemma {:induction false} ReachableInvariant(events: seq<Event>)
    requires Feasible(Initial, events)
    ensures Invariant(Run(Initial, events))
  {
    if events != [] {
      ReachableInvariant(events[..|events| - 1]);
    }
  }

  /** After any history, the audio is playing exactly when some play request
      resolved and no `ended` event came after it. */
  lemma {:induction false} PlayingIffResolvedSinceEnded(events: seq<Event>)
    requires Feasible(Initial, events)
    ensures Run(Initial, events).playing <==>
      exists i :: 0 <= i < |events| && events[i] == PlayResolved &&
        forall j :: i < j < |events| ==> events[j] != Ended
  {
    if events != [] {
      var n := |events|;
      var before := events[..n - 1];
      var e := events[n - 1];
      PlayingIffResolvedSinceEnded(before);
      if e == PlayResolved {
        assert events[n - 1] == PlayResolved;
      } else if e == Ended {
        forall i | 0 <= i < n && events[i] == PlayResolved
          ensures exists j :: i < j < n && events[j] == Ended
        {
          assert i < n - 1 && events[n - 1] == Ended;
        }
      } else {
        if Run(Initial, before).playing {
          var i :| 0 <= i < n - 1 && before[i] == PlayResolved &&
            forall j :: i < j < n - 1 ==> before[j] != Ended;
          assert events[i] == PlayResolved;
          assert forall j :: i < j < n ==> events[j] != Ended by {
            forall j | i < j < n ensures events[j] != Ended {
              if j < n - 1 { assert events[j] == before[j]; }
            }
          }
        } else {
          forall i | 0 <= i < n && events[i] == PlayResolved
            ensures exists j :: i < j < n && events[j] == Ended
          {
            assert i < n - 1 && before[i] == PlayResolved;
            var j :| i < j < n - 1 && before[j] == Ended;
            assert events[j] == Ended;
          }
        }
      }
    }
  }

  /** The analyser exists exactly when the button has been clicked, and it is
      built once: by the first click, never again. */
  lemma {:induction false} AnalyserBuiltOnce(events: seq<Event>)
    requires Feasible(Initial, events)
    ensures Run(Initial, events).analyserCreated <==> Click in events
    ensures BuildCount(Initial, events) == if Click in events then 1 else 0
  {
    if events != [] {
      var before := events[..|events| - 1];
      var e := events[|events| - 1];
      AnalyserBuiltOnce(before);
      assert events == before + [e];
      assert Click in events <==> Click in before || e == Click;
    }
  }
}

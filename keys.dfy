/**
 * The key-state machine shared by the controllers: the stream of input
 * events sent to the operating system (pyautogui's keyDown, keyUp, press and
 * click), what a stream does to the set of keys held down, and the two loops
 * that turn "keys held now" and "keys wanted this frame" into events.
 */
module Keys {

  /** The logical keys the controllers send. */
  datatype Key = Left | Right | Up | Down | X | Z | Enter | Ctrl | Space

  /**
   * One call into the input-injection library. `Tap` is `pyautogui.press`
   * (a down and an up in one call); `Click` is a left mouse click at a
   * screen position.
   */
  datatype Event = KeyDown(key: Key) | KeyUp(key: Key) | Tap(key: Key) | Click(x: int, y: int)

  /** The effect of one event on the set of keys held down. */
  function Apply(held: set<Key>, e: Event): set<Key>
  {
    match e
    case KeyDown(k) => held + {k}
    case KeyUp(k) => held - {k}
    case _ => held
  }

  /** An event is redundant when it presses a held key or releases a free one. */
  predicate Admissible(held: set<Key>, e: Event)
  {
    match e
    case KeyDown(k) => k !in held
    case KeyUp(k) => k in held
    case _ => true
  }

  /** The keys held down after `evs`, starting from `held`. */
  function Replay(held: set<Key>, evs: seq<Event>): set<Key>
    decreases |evs|
  {
    if evs == [] then held
    else Apply(Replay(held, evs[..|evs| - 1]), evs[|evs| - 1])
  }

  /** No event of `evs`, replayed from `held`, is redundant: in particular no
      held key ever receives a second keyDown. */
  predicate Clean(held: set<Key>, evs: seq<Event>)
    decreases |evs|
  {
    evs == [] ||
    (Clean(held, evs[..|evs| - 1]) && Admissible(Replay(held, evs[..|evs| - 1]), evs[|evs| - 1]))
  }

  /** Replaying two streams one after the other is replaying their concatenation. */
  lemma {:induction false} ReplayConcat(held: set<Key>, a: seq<Event>, b: seq<Event>)
    ensures Replay(held, a + b) == Replay(Replay(held, a), b)
    ensures Clean(held, a + b) <==> Clean(held, a) && Clean(Replay(held, a), b)
    decreases |b|
  {
    if b == [] {
      assert a + b == a;
    } else {
      var b' := b[..|b| - 1];
      assert (a + b)[..|a + b| - 1] == a + b';
      assert (a + b)[|a + b| - 1] == b[|b| - 1];
      ReplayConcat(held, a, b');
    }
  }

  /** Appending one event: the step every controller takes. */
  lemma AppendOne(held: set<Key>, evs: seq<Event>, e: Event)
    ensures Replay(held, evs + [e]) == Apply(Replay(held, evs), e)
    ensures Clean(held, evs + [e]) <==> Clean(held, evs) && Admissible(Replay(held, evs), e)
  {
    assert (evs + [e])[..|evs|] == evs;
  }

  /** Events that neither press nor release leave the held set alone. */
  lemma {:induction false} ReplayIgnoresTapsAndClicks(held: set<Key>, evs: seq<Event>)
    requires forall i | 0 <= i < |evs| :: evs[i].Tap? || evs[i].Click?
    ensures Replay(held, evs) == held && Clean(held, evs)
    decreases |evs|
  {
    if evs != [] {
      ReplayIgnoresTapsAndClicks(held, evs[..|evs| - 1]);
    }
  }

  /** One iteration of the keyUp loop keeps the loop's invariant. */
  lemma ReleaseStep(held: set<Key>, keys: set<Key>, rest: set<Key>, sent: seq<Event>, k: Key)
    requires keys <= held && rest <= keys && k in rest
    requires Replay(held, sent) == held - (keys - rest) && Clean(held, sent)
    requires forall i | 0 <= i < |sent| :: sent[i].KeyUp? && sent[i].key in keys - rest
    ensures Replay(held, sent + [KeyUp(k)]) == held - (keys - (rest - {k}))
    ensures Clean(held, sent + [KeyUp(k)])
    ensures forall i | 0 <= i < |sent| + 1 :: (sent + [KeyUp(k)])[i].KeyUp? && (sent + [KeyUp(k)])[i].key in keys - (rest - {k})
  {
    AppendOne(held, sent, KeyUp(k));
  }

  /** One iteration of the keyDown loop keeps the loop's invariant. */
  lemma PressStep(held: set<Key>, keys: set<Key>, rest: set<Key>, sent: seq<Event>, k: Key)
    requires keys !! held && rest <= keys && k in rest
    requires Replay(held, sent) == held + (keys - rest) && Clean(held, sent)
    requires forall i | 0 <= i < |sent| :: sent[i].KeyDown? && sent[i].key in keys - rest
    ensures Replay(held, sent + [KeyDown(k)]) == held + (keys - (rest - {k}))
    ensures Clean(held, sent + [KeyDown(k)])
    ensures forall i | 0 <= i < |sent| + 1 :: (sent + [KeyDown(k)])[i].KeyDown? && (sent + [KeyDown(k)])[i].key in keys - (rest - {k})
  {
    AppendOne(held, sent, KeyDown(k));
  }

  /**
   * One `for key in keys: pyautogui.keyUp(key)` loop over keys that are all
   * held: each is released exactly once, in whatever order the set iterates.
   */
  method ReleaseKeys(held: set<Key>, keys: set<Key>, log: seq<Event>) returns (out: seq<Event>)
    requires keys <= held
    ensures |log| <= |out| && out[..|log|] == log
    ensures Replay(held, out[|log|..]) == held - keys
    ensures Clean(held, out[|log|..])
    ensures forall i | |log| <= i < |out| :: out[i].KeyUp? && out[i].key in keys
    ensures keys == {} ==> out == log
  {
    ghost var sent: seq<Event> := [];
    out := log;
    var rest := keys;
    while rest != {}
      invariant out == log + sent
      invariant rest <= keys
      invariant keys == {} ==> out == log
      invariant Replay(held, sent) == held - (keys - rest)
      invariant Clean(held, sent)
      invariant forall i | 0 <= i < |sent| :: sent[i].KeyUp? && sent[i].key in keys - rest
      decreases rest
    {
      var k :| k in rest;
      ReleaseStep(held, keys, rest, sent, k);
      out, sent := out + [KeyUp(k)], sent + [KeyUp(k)];
      rest := rest - {k};
    }
    assert out[|log|..] == sent;
  }

  /**
   * One `for key in keys: pyautogui.keyDown(key)` loop over keys none of
   * which is held: each is pressed exactly once.
   */
  method PressKeys(held: set<Key>, keys: set<Key>, log: seq<Event>) returns (out: seq<Event>)
    requires keys !! held
    ensures |log| <= |out| && out[..|log|] == log
    ensures Replay(held, out[|log|..]) == held + keys
    ensures Clean(held, out[|log|..])
    ensures forall i | |log| <= i < |out| :: out[i].KeyDown? && out[i].key in keys
    ensures keys == {} ==> out == log
  {
    ghost var sent: seq<Event> := [];
    out := log;
    var rest := keys;
    while rest != {}
      invariant out == log + sent
      invariant rest <= keys
      invariant keys == {} ==> out == log
      invariant Replay(held, sent) == held + (keys - rest)
      invariant Clean(held, sent)
      invariant forall i | 0 <= i < |sent| :: sent[i].KeyDown? && sent[i].key in keys - rest
      decreases rest
    {
      var k :| k in rest;
      PressStep(held, keys, rest, sent, k);
      out, sent := out + [KeyDown(k)], sent + [KeyDown(k)];
      rest := rest - {k};
    }
    assert out[|log|..] == sent;
  }

  /**
   * The per-frame key update of both arcade controllers: keyUp for exactly
   * the keys in `held - desired`, then keyDown for exactly the keys in
   * `desired - held`; afterwards the keys held are `desired`, and no event
   * is redundant (so a held key never gets a second keyDown).
   */
  method Transition(held: set<Key>, desired: set<Key>, log: seq<Event>) returns (out: seq<Event>)
    ensures |log| <= |out| && out[..|log|] == log
    ensures Replay(held, out[|log|..]) == desired
    ensures Clean(held, out[|log|..])
    ensures forall i | |log| <= i < |out| ::
              (out[i].KeyUp? && out[i].key in held - desired) || (out[i].KeyDown? && out[i].key in desired - held)
    ensures forall i, j | |log| <= i < j < |out| :: out[i].KeyDown? ==> out[j].KeyDown?
    ensures held == desired ==> out == log
  {
    var mid := ReleaseKeys(held, held - desired, log);
    var kept := held - (held - desired);
    out := PressKeys(kept, desired - held, mid);
    ghost var ups, downs := mid[|log|..], out[|mid|..];
    assert out[|log|..] == ups + downs;
    ReplayConcat(held, ups, downs);
    assert kept + (desired - held) == desired;
  }
}

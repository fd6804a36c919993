/**
 * The tail of `onResults` in src/App.jsx: a classified pose becomes a score
 * 0..6, the score picks a pitch from the shared tone list, and a one-field
 * state machine (`prevKeyRef.current`) turns the stream of pitches into
 * release and attack commands for a monophonic synthesiser.
 *
 * The synthesiser, its clock (`Tone.now()`) and the pose pipeline are
 * outside the model: the current time is a parameter and the commands are
 * returned as values.
 */
module App {
  import opened Geometry
  import opened Classifier

  datatype Option<T> = None | Some(value: T)

  // ---- Score mapping --------------------------------------------------------

  /** String.prototype.includes: `part` occurs somewhere in `s`. */
  predicate Contains(s: string, part: string)
    decreases |s|
  {
    |part| <= |s| && (s[..|part|] == part || Contains(s[1..], part))
  }

  /** A string that lacks one of the characters of `part` does not contain it. */
  lemma {:induction false} MissingChar(s: string, part: string, k: nat)
    requires k < |part| && part[k] !in s
    ensures !Contains(s, part)
    decreases |s|
  {
    if |part| <= |s| {
      assert s[..|part|][k] == s[k];
      MissingChar(s[1..], part, k);
    }
  }

  /** 3 for a label that names the left side, 0 otherwise. */
  function HorizontalScore(pose: DabType): (score: nat)
    ensures score == 0 || score == 3
  {
    if Contains(Name(pose), "left") then 3 else 0
  }

  /** 1 for an "Up" label, 2 for "Side", 3 for "Down", 0 otherwise. */
  function VerticalScore(pose: DabType): (score: nat)
    ensures score <= 3
  {
    if Contains(Name(pose), "Up") then 1
    else if Contains(Name(pose), "Side") then 2
    else if Contains(Name(pose), "Down") then 3
    else 0
  }

  function TotalScore(pose: DabType): (score: nat)
    ensures score <= 6
  {
    HorizontalScore(pose) + VerticalScore(pose)
  }

  /** A string holding `part` at position `k` contains it. */
  lemma {:induction false} FoundAt(s: string, part: string, k: nat)
    requires k + |part| <= |s| && s[k..k + |part|] == part
    ensures Contains(s, part)
    decreases k
  {
    if k > 0 {
      assert s[1..][k - 1..k - 1 + |part|] == part;
      FoundAt(s[1..], part, k - 1);
    }
  }

  lemma LeftNamesSayLeft(pose: DabType)
    ensures Contains(Name(pose), "left") <==> pose.IsLeft()
  {
    if pose.IsLeft() {
      assert Name(pose)[0..4] == "left";
      FoundAt(Name(pose), "left", 0);
    } else {
      MissingChar(Name(pose), "left", 0);
    }
  }

  lemma UpNamesSayUp(pose: DabType)
    ensures Contains(Name(pose), "Up") <==> pose.IsUp()
  {
    if pose == LeftUpDab {
      assert Name(pose)[4..6] == "Up";
      FoundAt(Name(pose), "Up", 4);
    } else if pose == RightUpDab {
      assert Name(pose)[5..7] == "Up";
      FoundAt(Name(pose), "Up", 5);
    } else {
      MissingChar(Name(pose), "Up", 0);
    }
  }

  lemma SideNamesSaySide(pose: DabType)
    ensures Contains(Name(pose), "Side") <==> pose.IsSide()
  {
    if pose == LeftSideDab {
      assert Name(pose)[4..8] == "Side";
      FoundAt(Name(pose), "Side", 4);
    } else if pose == RightSideDab {
      assert Name(pose)[5..9] == "Side";
      FoundAt(Name(pose), "Side", 5);
    } else {
      MissingChar(Name(pose), "Side", 0);
    }
  }

  lemma DownNamesSayDown(pose: DabType)
    ensures Contains(Name(pose), "Down") <==> pose.IsDown()
  {
    if pose == LeftDownDab {
      assert Name(pose)[4..8] == "Down";
      FoundAt(Name(pose), "Down", 4);
    } else if pose == RightDownDab {
      assert Name(pose)[5..9] == "Down";
      FoundAt(Name(pose), "Down", 5);
    } else {
      MissingChar(Name(pose), "Down", 2);
    }
  }

  /**
   * The two components of the score: 3 exactly for a left label, and 1, 2
   * or 3 for up, side or down (0 for notDab).
   */
  lemma ScoreComponents(pose: DabType)
    ensures HorizontalScore(pose) == (if pose.IsLeft() then 3 else 0)
    ensures VerticalScore(pose) == match pose
      case LeftUpDab | RightUpDab => 1
      case LeftSideDab | RightSideDab => 2
      case LeftDownDab | RightDownDab => 3
      case NotDab => 0
  {
    LeftNamesSayLeft(pose);
    UpNamesSayUp(pose);
    SideNamesSaySide(pose);
    DownNamesSayDown(pose);
  }

  /**
   * The score of every label: the right dabs score 1..3 (up, side, down),
   * the left dabs 4..6, and notDab 0.
   */
  lemma ScoreTable(pose: DabType)
    ensures TotalScore(pose) == match pose
      case RightUpDab => 1
      case RightSideDab => 2
      case RightDownDab => 3
      case LeftUpDab => 4
      case LeftSideDab => 5
      case LeftDownDab => 6
      case NotDab => 0
  {
    ScoreComponents(pose);
  }

  /** Different labels get different scores, and only notDab scores 0. */
  lemma ScoreInjective(p: DabType, q: DabType)
    ensures TotalScore(p) == TotalScore(q) ==> p == q
    ensures TotalScore(p) == 0 <==> p == NotDab
  {
    ScoreTable(p);
    ScoreTable(q);
  }

  // ---- Key lookup -----------------------------------------------------------

  /** The tone list has seven slots; slot 0 is never read. */
  const ToneSlots: nat := 7

  /** The initial `toneListRef` contents; the number 0 in slot 0 is modelled as "". */
  const DefaultToneList: seq<string> := ["", "E5", "Eb5", "B4", "D5", "C5", "A4"]

  /** The pitch a pose selects: "" for score 0, otherwise the tone-list slot of its score. */
  function Key(pose: DabType, toneList: seq<string>): (key: string)
    requires |toneList| == ToneSlots
    ensures pose == NotDab ==> key == ""
    ensures pose != NotDab ==> key in toneList[1..]
  {
    ScoreInjective(pose, NotDab);
    var totalScore := TotalScore(pose);
    if totalScore > 0 then toneList[totalScore] else ""
  }

  /** The key reads only the slot of the pose's score; slot 0 is never read. */
  lemma KeyReadsOwnSlot(pose: DabType, toneList: seq<string>, i: nat, note: string)
    requires |toneList| == ToneSlots && i < ToneSlots
    requires i != TotalScore(pose) || i == 0
    ensures Key(pose, toneList[i := note]) == Key(pose, toneList)
  {
  }

  /** Writing a note into the slot of a dab's score makes that dab play it. */
  lemma KeyAfterWrite(pose: DabType, toneList: seq<string>, note: string)
    requires |toneList| == ToneSlots && pose != NotDab
    ensures Key(pose, toneList[TotalScore(pose) := note]) == note
  {
    ScoreInjective(pose, NotDab);
  }

  /**
   * With every configurable slot holding a pitch, the key is silent exactly
   * for notDab.
   */
  lemma KeySilentOnlyForNotDab(pose: DabType, toneList: seq<string>)
    requires |toneList| == ToneSlots
    requires forall i :: 1 <= i < ToneSlots ==> toneList[i] != ""
    ensures Key(pose, toneList) == "" <==> pose == NotDab
  {
    ScoreInjective(pose, NotDab);
  }

  // ---- Note trigger ---------------------------------------------------------

  /**
   * A command to the synthesiser with the time it takes effect: a release
   * acts at once, an attack at its scheduled time.
   */
  datatype Event = Release(time: real) | Attack(note: string, time: real)

  /** Attacks are scheduled this many seconds after `Tone.now()`. */
  const Lookahead: real := 0.05

  predicate HasAttack(events: seq<Event>)
  {
    exists i :: 0 <= i < |events| && events[i].Attack?
  }

  /** Every event takes effect strictly later than the ones before it. */
  predicate InTimeOrder(events: seq<Event>)
  {
    forall i, j :: 0 <= i < j < |events| ==> events[i].time < events[j].time
  }

  /**
   * The commands one classified frame sends, given the previous key and the
   * new one. A new non-silent key is released-then-attacked; a repeated key
   * sends nothing; silence releases only on its second consecutive frame.
   */
  function Respond(prevKey: Option<string>, key: string, now: real): (events: seq<Event>)
    ensures HasAttack(events) <==> key != "" && prevKey != Some(key)
    ensures forall i :: 0 <= i < |events| && events[i].Attack? ==>
      i == 1 && events[0] == Release(now) && events[i] == Attack(key, now + Lookahead)
    ensures Release(now) in events <==> (key != "" && prevKey != Some(key)) || (key == "" && prevKey == Some(""))
    ensures |events| == (if key != "" && prevKey != Some(key) then 2
                         else if key == "" && prevKey == Some("") then 1
                         else 0)
  {
    var switched := if Some(key) != prevKey && key != "" then [Release(now), Attack(key, now + Lookahead)] else [];
    var doubleSilence := if key == "" && prevKey == Some("") then [Release(now)] else [];
    assert switched != [] ==> (switched + doubleSilence)[1].Attack?;
    switched + doubleSilence
  }

  /** One call of `onResults`: the pose, or None when no landmarks were found, and the time. */
  datatype Tick = Tick(pose: Option<DabType>, now: real)

  /** The commands and the next `prevKey` of one frame. */
  function Step(prevKey: Option<string>, tick: Tick, toneList: seq<string>): (seq<Event>, Option<string>)
    requires |toneList| == ToneSlots
  {
    match tick.pose
    case None => ([], prevKey)
    case Some(pose) =>
      var key := Key(pose, toneList);
      (Respond(prevKey, key, tick.now), Some(key))
  }

  /** All commands sent over a run of frames, and the final `prevKey`. */
  function Run(prevKey: Option<string>, ticks: seq<Tick>, toneList: seq<string>): (out: (seq<Event>, Option<string>))
    requires |toneList| == ToneSlots
    ensures |out.0| <= 2 * |ticks|
    ensures ticks == [] ==> out.1 == prevKey
    ensures out.1 == None <==> prevKey == None && forall i :: 0 <= i < |ticks| ==> ticks[i].pose == None
    decreases |ticks|
  {
    if ticks == [] then ([], prevKey)
    else
      var before := Run(prevKey, ticks[..|ticks| - 1], toneList);
      var last := Step(before.1, ticks[|ticks| - 1], toneList);
      (before.0 + last.0, last.1)
  }

  /** Each frame comes more than `Lookahead` after the one before it. */
  predicate Spaced(ticks: seq<Tick>)
  {
    forall i :: 0 < i < |ticks| ==> ticks[i - 1].now + Lookahead < ticks[i].now
  }

  /**
   * When frames are more than `Lookahead` apart, the commands of a run take
   * effect in the order they are sent, each no later than `Lookahead` after
   * the last frame: a release from a later frame never overtakes the attack
   * an earlier frame scheduled.
   */
  lemma {:induction false} RunInTimeOrder(prevKey: Option<string>, ticks: seq<Tick>, toneList: seq<string>)
    requires |toneList| == ToneSlots && Spaced(ticks)
    ensures InTimeOrder(Run(prevKey, ticks, toneList).0)
    ensures ticks != [] ==> forall e :: e in Run(prevKey, ticks, toneList).0 ==> e.time <= ticks[|ticks| - 1].now + Lookahead
    decreases |ticks|
  {
    if ticks != [] {
      var n := |ticks|;
      var init := ticks[..n - 1];
      SpacedPrefix(ticks);
      RunInTimeOrder(prevKey, init, toneList);
      var before := Run(prevKey, init, toneList);
      var last := Step(before.1, ticks[n - 1], toneList);
      StepTimes(before.1, ticks[n - 1], toneList);
      if n > 1 {
        assert init[n - 2] == ticks[n - 2];
        assert forall e :: e in before.0 ==> e.time < ticks[n - 1].now;
      }
      ConcatInTimeOrder(before.0, last.0);
    }
  }

  /** Dropping the last frame keeps the frames spaced. */
  lemma SpacedPrefix(ticks: seq<Tick>)
    requires Spaced(ticks) && ticks != []
    ensures Spaced(ticks[..|ticks| - 1])
  {
    var init := ticks[..|ticks| - 1];
    forall i | 0 < i < |init|
      ensures init[i - 1].now + Lookahead < init[i].now
    {
      assert init[i - 1] == ticks[i - 1] && init[i] == ticks[i];
    }
  }

  /** One frame's commands are time-ordered and take effect within `Lookahead` of the frame. */
  lemma RespondTimes(prevKey: Option<string>, key: string, now: real)
    ensures InTimeOrder(Respond(prevKey, key, now))
    ensures forall e :: e in Respond(prevKey, key, now) ==> now <= e.time <= now + Lookahead
  {
    var events := Respond(prevKey, key, now);
    if key != "" && prevKey != Some(key) {
      assert events == [Release(now), Attack(key, now + Lookahead)];
    } else if key == "" && prevKey == Some("") {
      assert events == [Release(now)];
    } else {
      assert events == [];
    }
  }

  lemma StepTimes(prevKey: Option<string>, tick: Tick, toneList: seq<string>)
    requires |toneList| == ToneSlots
    ensures InTimeOrder(Step(prevKey, tick, toneList).0)
    ensures forall e :: e in Step(prevKey, tick, toneList).0 ==> tick.now <= e.time <= tick.now + Lookahead
  {
    if tick.pose.Some? {
      RespondTimes(prevKey, Key(tick.pose.value, toneList), tick.now);
    }
  }

  /** Two time-ordered batches, the first ending before the second starts, are time-ordered together. */
  lemma ConcatInTimeOrder(a: seq<Event>, b: seq<Event>)
    requires InTimeOrder(a) && InTimeOrder(b)
    requires forall x, y :: x in a && y in b ==> x.time < y.time
    ensures InTimeOrder(a + b)
  {
    forall i, j | 0 <= i < j < |a + b|
      ensures (a + b)[i].time < (a + b)[j].time
    {
      if j < |a| {
        assert (a + b)[i] == a[i] && (a + b)[j] == a[j];
      } else if i >= |a| {
        assert (a + b)[i] == b[i - |a|] && (a + b)[j] == b[j - |a|];
      } else {
        assert (a + b)[i] == a[i] && (a + b)[j] == b[j - |a|];
      }
    }
  }

  /** The note a monophonic synthesiser holds after `events`, having held `held` before. */
  function Sounding(held: Option<string>, events: seq<Event>): Option<string>
  {
    if events == [] then held
    else match events[|events| - 1]
      case Release(_) => None
      case Attack(note, _) => Some(note)
  }

  /**
   * What `prevKey` says about the synthesiser: nothing sounds before the first
   * frame, and after a non-silent key exactly that key sounds. After one
   * silent frame the old note may still sound (the release is delayed).
   */
  predicate Agrees(prevKey: Option<string>, held: Option<string>)
  {
    match prevKey
    case None => held == None
    case Some(key) => key != "" ==> held == Some(key)
  }

  lemma SoundingAppend(held: Option<string>, a: seq<Event>, b: seq<Event>)
    ensures Sounding(held, a + b) == Sounding(Sounding(held, a), b)
  {
    if b != [] {
      assert (a + b)[|a + b| - 1] == b[|b| - 1];
    }
  }

  /** The commands for a new key leave the synthesiser in agreement with that key. */
  lemma RespondKeepsAgreement(prevKey: Option<string>, held: Option<string>, key: string, now: real)
    requires Agrees(prevKey, held)
    ensures Agrees(Some(key), Sounding(held, Respond(prevKey, key, now)))
  {
    var events := Respond(prevKey, key, now);
    if key != "" && prevKey != Some(key) {
      assert events == [Release(now), Attack(key, now + Lookahead)];
    } else if key == "" && prevKey == Some("") {
      assert events == [Release(now)];
    } else {
      assert events == [];
    }
  }

  /** One frame keeps the synthesiser in agreement with `prevKey`. */
  lemma StepKeepsAgreement(prevKey: Option<string>, held: Option<string>, tick: Tick, toneList: seq<string>)
    requires |toneList| == ToneSlots && Agrees(prevKey, held)
    ensures var out := Step(prevKey, tick, toneList); Agrees(out.1, Sounding(held, out.0))
  {
    if tick.pose.Some? {
      RespondKeepsAgreement(prevKey, held, Key(tick.pose.value, toneList), tick.now);
    }
  }

  /** Over any run the synthesiser agrees with the final `prevKey`. */
  lemma {:induction false} RunKeepsAgreement(prevKey: Option<string>, held: Option<string>, ticks: seq<Tick>, toneList: seq<string>)
    requires |toneList| == ToneSlots && Agrees(prevKey, held)
    ensures var out := Run(prevKey, ticks, toneList); Agrees(out.1, Sounding(held, out.0))
    decreases |ticks|
  {
    if ticks != [] {
      var before := Run(prevKey, ticks[..|ticks| - 1], toneList);
      RunKeepsAgreement(prevKey, held, ticks[..|ticks| - 1], toneList);
      var last := Step(before.1, ticks[|ticks| - 1], toneList);
      StepKeepsAgreement(before.1, Sounding(held, before.0), ticks[|ticks| - 1], toneList);
      SoundingAppend(held, before.0, last.0);
    }
  }

  /**
   * No note sticks: two consecutive frames classified notDab leave the
   * synthesiser silent, whatever came before.
   */
  lemma TwoNotDabFramesSilence(prevKey: Option<string>, held: Option<string>, ticks: seq<Tick>, toneList: seq<string>, t1: real, t2: real)
    requires |toneList| == ToneSlots
    ensures var run := ticks + [Tick(Some(NotDab), t1), Tick(Some(NotDab), t2)];
      Sounding(held, Run(prevKey, run, toneList).0) == None
  {
    var run := ticks + [Tick(Some(NotDab), t1), Tick(Some(NotDab), t2)];
    ScoreInjective(NotDab, NotDab);
    assert run[..|run| - 1][..|run| - 2] == ticks;
    assert run[..|run| - 1][|run| - 2] == Tick(Some(NotDab), t1);
    var mid := Run(prevKey, run[..|run| - 1], toneList);
    assert mid.1 == Some("");
    var last := Step(mid.1, run[|run| - 1], toneList);
    assert last.0 == [Release(t2)];
    SoundingAppend(held, mid.0, last.0);
  }

  /** A frame whose pose selects a pitch leaves exactly that pitch sounding. */
  lemma DabFrameSounds(prevKey: Option<string>, held: Option<string>, tick: Tick, toneList: seq<string>)
    requires |toneList| == ToneSlots && Agrees(prevKey, held)
    requires tick.pose.Some? && Key(tick.pose.value, toneList) != ""
    ensures var out := Step(prevKey, tick, toneList);
      Sounding(held, out.0) == Some(Key(tick.pose.value, toneList))
  {
    StepKeepsAgreement(prevKey, held, tick, toneList);
  }

  /** Every attack in a run comes straight after a release. */
  predicate AttacksFollowReleases(events: seq<Event>)
  {
    forall i :: 0 <= i < |events| && events[i].Attack? ==> 0 < i && events[i - 1].Release?
  }

  /** Monophony: in every run, each attack is immediately preceded by a release. */
  lemma {:induction false} RunMonophonic(prevKey: Option<string>, ticks: seq<Tick>, toneList: seq<string>)
    requires |toneList| == ToneSlots
    ensures AttacksFollowReleases(Run(prevKey, ticks, toneList).0)
    decreases |ticks|
  {
    if ticks != [] {
      var before := Run(prevKey, ticks[..|ticks| - 1], toneList);
      RunMonophonic(prevKey, ticks[..|ticks| - 1], toneList);
      var last := Step(before.1, ticks[|ticks| - 1], toneList);
      var all := before.0 + last.0;
      forall i | 0 <= i < |all| && all[i].Attack?
        ensures 0 < i && all[i - 1].Release?
      {
        if i >= |before.0| {
          assert last.0[i - |before.0|].Attack?;
        }
      }
    }
  }

  function CountAttacks(events: seq<Event>): nat
  {
    if events == [] then 0
    else CountAttacks(events[..|events| - 1]) + (if events[|events| - 1].Attack? then 1 else 0)
  }

  function CountReleases(events: seq<Event>): nat
  {
    if events == [] then 0
    else CountReleases(events[..|events| - 1]) + (if events[|events| - 1].Release? then 1 else 0)
  }

  lemma PrefixFollows(events: seq<Event>, k: nat)
    requires AttacksFollowReleases(events) && k <= |events|
    ensures AttacksFollowReleases(events[..k])
  {
    var prefix := events[..k];
    forall i | 0 <= i < |prefix| && prefix[i].Attack?
      ensures 0 < i && prefix[i - 1].Release?
    {
      assert events[i].Attack?;
    }
  }

  /**
   * Where every attack follows a release, attacks never outnumber releases:
   * no note is started without the previous one being stopped first.
   */
  lemma {:induction false} AttacksNeverOutnumberReleases(events: seq<Event>)
    requires AttacksFollowReleases(events)
    ensures CountAttacks(events) <= CountReleases(events)
    decreases |events|
  {
    if events != [] {
      var n := |events|;
      var init := events[..n - 1];
      PrefixFollows(events, n - 1);
      AttacksNeverOutnumberReleases(init);
      if events[n - 1].Attack? {
        assert init[n - 2].Release?;
        assert init[..n - 2] == events[..n - 2];
        PrefixFollows(events, n - 2);
        AttacksNeverOutnumberReleases(events[..n - 2]);
      }
    }
  }

  /** At the end of every prefix of a run, attacks do not outnumber releases. */
  lemma RunPrefixBalanced(prevKey: Option<string>, ticks: seq<Tick>, toneList: seq<string>, k: nat)
    requires |toneList| == ToneSlots
    requires k <= |Run(prevKey, ticks, toneList).0|
    ensures var events := Run(prevKey, ticks, toneList).0;
      CountAttacks(events[..k]) <= CountReleases(events[..k])
  {
    var events := Run(prevKey, ticks, toneList).0;
    RunMonophonic(prevKey, ticks, toneList);
    PrefixFollows(events, k);
    AttacksNeverOutnumberReleases(events[..k]);
  }

  /** A run of one frame is that frame's step. */
  lemma RunSingle(prevKey: Option<string>, tick: Tick, toneList: seq<string>)
    requires |toneList| == ToneSlots
    ensures Run(prevKey, [tick], toneList) == Step(prevKey, tick, toneList)
  {
    assert [tick][..0] == [];
    var last := Step(prevKey, tick, toneList);
    assert [] + last.0 == last.0;
  }

  /** A run of two frames is the first frame's step followed by the second's. */
  lemma RunPair(prevKey: Option<string>, t1: Tick, t2: Tick, toneList: seq<string>)
    requires |toneList| == ToneSlots
    ensures var first := Step(prevKey, t1, toneList);
      var second := Step(first.1, t2, toneList);
      Run(prevKey, [t1, t2], toneList) == (first.0 + second.0, second.1)
  {
    assert [t1, t2][..1] == [t1];
    RunSingle(prevKey, t1, toneList);
  }

  /** With the default tone list, a right side dab held for two frames plays Eb5 once. */
  lemma RepeatedDabPlaysOnce(t1: real, t2: real)
    ensures Run(None, [Tick(Some(RightSideDab), t1), Tick(Some(RightSideDab), t2)], DefaultToneList).0
         == [Release(t1), Attack("Eb5", t1 + Lookahead)]
  {
    ScoreTable(RightSideDab);
    assert Key(RightSideDab, DefaultToneList) == "Eb5";
    RunPair(None, Tick(Some(RightSideDab), t1), Tick(Some(RightSideDab), t2), DefaultToneList);
    assert Respond(None, "Eb5", t1) == [Release(t1), Attack("Eb5", t1 + Lookahead)];
    assert Respond(Some("Eb5"), "Eb5", t2) == [];
  }

  /** Two notDab frames at start-up release even though nothing was attacked. */
  lemma SilentStartReleases(t1: real, t2: real)
    ensures Run(None, [Tick(Some(NotDab), t1), Tick(Some(NotDab), t2)], DefaultToneList).0 == [Release(t2)]
  {
    ScoreTable(NotDab);
    assert Key(NotDab, DefaultToneList) == "";
    RunPair(None, Tick(Some(NotDab), t1), Tick(Some(NotDab), t2), DefaultToneList);
    assert Respond(None, "", t1) == [];
    assert Respond(Some(""), "", t2) == [Release(t2)];
  }

  /**
   * The App component's mutable references: the previous key and the tone
   * list it shares with the note setters. `played` records every command
   * sent to the synthesiser.
   */
  class NoteTrigger {
    var prevKey: Option<string>
    const toneList: array<string>
    var played: seq<Event>

    ghost predicate Valid()
      reads this
    {
      toneList.Length == ToneSlots && Agrees(prevKey, Sounding(None, played))
    }

    constructor()
      ensures Valid() && fresh(toneList)
      ensures toneList[..] == DefaultToneList
      ensures prevKey == None && played == []
    {
      prevKey := None;
      played := [];
      toneList := new string[7](i requires 0 <= i < 7 => DefaultToneList[i]);
    }

    /**
     * onResults after drawing: a frame without landmarks changes nothing;
     * otherwise the pose is classified and scored, the commands of the
     * transition are sent, and the key becomes the previous key.
     */
    method OnResults(poseLandmarks: Option<Frame>, f: FloatOps, now: real) returns (events: seq<Event>)
      requires Valid()
      modifies this
      ensures Valid()
      ensures poseLandmarks.None? ==> events == [] && prevKey == old(prevKey)
      ensures poseLandmarks.Some? ==>
        var key := Key(ClassifyPose(poseLandmarks.value, f), toneList[..]);
        events == Respond(old(prevKey), key, now) && prevKey == Some(key)
      ensures played == old(played) + events
    {
      if poseLandmarks.None? {
        events := [];
        return;
      }
      var pose := ClassifyPose(poseLandmarks.value, f);
      var key := Key(pose, toneList[..]);
      events := [];
      if Some(key) != prevKey {
        if key != "" {
          events := events + [Release(now), Attack(key, now + Lookahead)];
        }
      }
      if key == "" && prevKey == Some("") {
        events := events + [Release(now)];
      }
      StepKeepsAgreement(prevKey, Sounding(None, played), Tick(Some(pose), now), toneList[..]);
      SoundingAppend(None, played, events);
      prevKey := Some(key);
      played := played + events;
    }
  }
}

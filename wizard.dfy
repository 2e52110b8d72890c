/**
 * The create/edit dialogues of `bot.py` (`modify_or_create_item`,
 * `modify_or_create_character`): the option menus they offer, the
 * ability-score selection stages, and the order in which a submitted form
 * and the component events that follow it update the record.
 *
 * The chat channel is not modelled; what it delivers is a parameter: the
 * form's answers as a map from field id to text, and the component events
 * as a finite sequence. Running out of events means the bot is still
 * waiting (it never times out), so nothing is saved.
 */
module Wizard {
  import opened Wrappers
  import opened Decimal
  import opened Models
  import opened Cards

  /** Python's `range(lo, hi, step)` for a positive step: `lo`, `lo + step`, ... while below `hi`. */
  function Range(lo: int, hi: int, step: int): seq<int>
    requires step > 0
  {
    var count := if lo < hi then (hi - lo + step - 1) / step else 0;
    seq(count, k => lo + k * step)
  }

  /**
   * `Range` is Python's `range`: it starts at `lo`, steps by `step`, stays
   * below `hi`, and stops only where the next step would reach `hi`.
   */
  lemma RangeMeaning(lo: int, hi: int, step: int)
    requires step > 0
    ensures var r := Range(lo, hi, step);
            && (forall k :: 0 <= k < |r| ==> r[k] == lo + k * step && r[k] < hi)
            && hi <= lo + |r| * step
            && (lo >= hi <==> r == [])
  {
    var r := Range(lo, hi, step);
    if lo < hi {
      var q := (hi - lo + step - 1) / step;
      var m := (hi - lo + step - 1) % step;
      assert q * step + m == hi - lo + step - 1;
      assert |r| == q;
      forall k | 0 <= k < |r|
        ensures r[k] < hi
      {
        assert k * step <= (q - 1) * step;
      }
    }
  }

  /** The scores a stat menu offers: `range(6, 22, 2)` followed by 21 and 22. */
  function StatRange(): seq<int> {
    Range(6, 22, 2) + [21, 22]
  }

  /** The option values of a stat menu, `f'{i}'` for each offered score. */
  function StatOptions(): seq<string> {
    seq(|StatRange()|, k requires 0 <= k < |StatRange()| => IntToString(StatRange()[k]))
  }

  /** The options of the bulk menu: `-`, `L`, then `str(i)` for `i` in `range(1, 21)`. */
  function BulkOptions(): seq<string> {
    ["-", "L"] + seq(|Range(1, 21, 1)|, k requires 0 <= k < |Range(1, 21, 1)| => IntToString(Range(1, 21, 1)[k]))
  }

  /** The stat menu offers exactly ten scores, all between 6 and 22, and each option reads back as its score. */
  lemma StatMenu()
    ensures StatRange() == [6, 8, 10, 12, 14, 16, 18, 20, 21, 22]
    ensures forall k :: 0 <= k < |StatRange()| ==> 6 <= StatRange()[k] <= 22
    ensures |StatOptions()| == 10
    ensures forall k :: 0 <= k < |StatOptions()| ==> ParseInt(StatOptions()[k]) == Some(StatRange()[k])
  {
    var evens := Range(6, 22, 2);
    assert |evens| == 8;
    assert evens == [6, 8, 10, 12, 14, 16, 18, 20];
    forall k | 0 <= k < |StatOptions()|
      ensures ParseInt(StatOptions()[k]) == Some(StatRange()[k])
    {
      IntToStringRoundTrip(StatRange()[k]);
    }
  }

  /** Any value picked from a stat menu is a number `int()` accepts, between 6 and 22. */
  lemma StatOptionParses(value: string)
    requires value in StatOptions()
    ensures ParseInt(value).Some? && 6 <= ParseInt(value).value <= 22
  {
    StatMenu();
    var k :| 0 <= k < |StatOptions()| && StatOptions()[k] == value;
  }

  /**
   * The bulk menu has 22 options and the k-th decodes through `txt_to_bulk`
   * to k - 1: no bulk, light, then 1 to 20.
   */
  lemma BulkMenu()
    ensures |BulkOptions()| == 22
    ensures forall k :: 0 <= k < |BulkOptions()| ==> DecodeBulk(BulkOptions()[k]) == Some(k - 1)
  {
    var counted := Range(1, 21, 1);
    assert counted[|counted| - 1] == |counted|;
    assert |counted| == 20;
    forall k | 0 <= k < |BulkOptions()|
      ensures DecodeBulk(BulkOptions()[k]) == Some(k - 1)
    {
      if k >= 2 {
        assert BulkOptions()[k] == BulkTxt(counted[k - 2]);
        BulkRoundTrip(counted[k - 2]);
      }
    }
  }

  /** Every bulk the menu can set lies between no bulk and 20. */
  lemma BulkMenuRange(value: string)
    requires value in BulkOptions()
    ensures DecodeBulk(value).Some? && NoBulk <= DecodeBulk(value).value <= 20
  {
    BulkMenu();
    var k :| 0 <= k < |BulkOptions()| && BulkOptions()[k] == value;
  }

  /** A component event: the "next" button, or a value picked in the menu of one stat. */
  datatype Event = Next | Select(stat: Stat, value: string)

  /**
   * The two selection screens: the first shows the menus of strength,
   * dexterity and constitution, the second those of intelligence, wisdom
   * and charisma.
   */
  datatype Screen = FirstScreen | SecondScreen {
    predicate Shows(st: Stat) {
      if FirstScreen? then st.Strength? || st.Dexterity? || st.Constitution?
      else st.Intelligence? || st.Wisdom? || st.Charisma?
    }
  }

  predicate NoNext(events: seq<Event>) {
    forall i :: 0 <= i < |events| ==> events[i].Select?
  }

  /** Events that the menus of `screen` and its "next" button can produce. */
  predicate FromMenus(events: seq<Event>, screen: Screen) {
    forall i :: 0 <= i < |events| && events[i].Select? ==>
      screen.Shows(events[i].stat) && events[i].value in StatOptions()
  }

  /**
   * How a selection stage ends: at the first "next", with the events after
   * it left for what follows; on a value `int()` rejects (the `ValueError`
   * ends the whole dialogue); or still waiting when the events run out.
   */
  datatype StageResult =
    | Done(scores: AbilityScores, rest: seq<Event>)
    | BadValue(scores: AbilityScores)
    | Waiting(scores: AbilityScores)

  /** One selection stage: each selection overwrites its stat until the first "next". */
  function Stage(s: AbilityScores, events: seq<Event>): (r: StageResult)
    ensures r.Done? ==> |r.rest| < |events| && r.rest == events[|events| - |r.rest|..]
    decreases |events|
  {
    if events == [] then Waiting(s)
    else
      match events[0]
      case Next => Done(s, events[1..])
      case Select(stat, value) =>
        match ParseInt(value)
        case None => BadValue(s)
        case Some(n) => Stage(s.With(stat, n), events[1..])
  }

  /** The text of the last selection of `st` among `events`, scanning from the end. */
  function LastChoice(events: seq<Event>, st: Stat): Option<string>
    decreases |events|
  {
    if events == [] then None
    else
      var e := events[|events| - 1];
      if e.Select? && e.stat == st then Some(e.value) else LastChoice(events[..|events| - 1], st)
  }

  /** The score the last selection of `st` among `events` sets, or `default` if none does. */
  function Chosen(events: seq<Event>, st: Stat, default: int): int {
    match LastChoice(events, st)
    case None => default
    case Some(v) => match ParseInt(v) case Some(n) => n case None => default
  }

  lemma {:induction false} LastChoiceCons(e: Event, events: seq<Event>, st: Stat)
    ensures LastChoice([e] + events, st) ==
      if LastChoice(events, st).Some? then LastChoice(events, st)
      else if e.Select? && e.stat == st then Some(e.value) else None
    decreases |events|
  {
    if events == [] {
      assert ([e] + events)[..0] == [];
    } else {
      var all := [e] + events;
      assert all[..|all| - 1] == [e] + events[..|events| - 1];
      LastChoiceCons(e, events[..|events| - 1], st);
    }
  }

  /** A selection in front of `events` only changes the fallback score of its stat. */
  lemma ChosenCons(stat: Stat, value: string, n: int, events: seq<Event>, st: Stat, default: int)
    requires ParseInt(value) == Some(n)
    requires LastChoice(events, st).Some? ==> ParseInt(LastChoice(events, st).value).Some?
    ensures Chosen([Select(stat, value)] + events, st, default) ==
            Chosen(events, st, if stat == st then n else default)
  {
    LastChoiceCons(Select(stat, value), events, st);
  }

  /** The number of events a finished stage consumed, its "next" included. */
  function Consumed(events: seq<Event>, r: StageResult): nat
    requires r.Done? && |r.rest| < |events|
  {
    |events| - |r.rest|
  }

  /** `events[k - 1]` is the first "next" among `events`. */
  predicate FirstNextAt(events: seq<Event>, k: int) {
    0 < k <= |events| && events[k - 1] == Next && forall i :: 0 <= i < k - 1 ==> events[i].Select?
  }

  /** A finished stage stopped at the first "next". */
  lemma {:induction false} StageStopsAtFirstNext(s: AbilityScores, events: seq<Event>)
    requires Stage(s, events).Done?
    ensures FirstNextAt(events, Consumed(events, Stage(s, events)))
    decreases |events|
  {
    var r := Stage(s, events);
    var k := Consumed(events, r);
    if events[0].Select? {
      var s' := s.With(events[0].stat, ParseInt(events[0].value).value);
      assert Stage(s', events[1..]) == r;
      StageStopsAtFirstNext(s', events[1..]);
      assert Consumed(events[1..], r) == k - 1;
      forall i | 0 <= i < k - 1
        ensures events[i].Select?
      {
        if i > 0 {
          assert events[i] == events[1..][i - 1];
        }
      }
    }
  }

  /** A stage still waiting has seen no "next" at all. */
  lemma {:induction false} StageWaitingSawNoNext(s: AbilityScores, events: seq<Event>)
    requires Stage(s, events).Waiting?
    ensures NoNext(events)
    decreases |events|
  {
    if events != [] {
      var s' := s.With(events[0].stat, ParseInt(events[0].value).value);
      assert Stage(s', events[1..]) == Stage(s, events);
      StageWaitingSawNoNext(s', events[1..]);
      forall i | 0 < i < |events|
        ensures events[i].Select?
      {
        assert events[i] == events[1..][i - 1];
      }
    }
  }

  /**
   * When a stage finishes, each stat holds the value of its last selection
   * before the first "next", and a stat never selected keeps its prior value.
   */
  lemma {:induction false} StageLastWriteWins(s: AbilityScores, events: seq<Event>, st: Stat)
    requires Stage(s, events).Done?
    ensures var r := Stage(s, events);
            var before := events[..Consumed(events, r) - 1];
            && (LastChoice(before, st).Some? ==> ParseInt(LastChoice(before, st).value).Some?)
            && r.scores.Get(st) == Chosen(before, st, s.Get(st))
    decreases |events|
  {
    var r := Stage(s, events);
    var k := Consumed(events, r);
    if events[0].Select? {
      var n := ParseInt(events[0].value).value;
      var s' := s.With(events[0].stat, n);
      assert Stage(s', events[1..]) == r;
      StageLastWriteWins(s', events[1..], st);
      assert Consumed(events[1..], r) == k - 1;
      var tail := events[1..][..k - 2];
      assert events[..k - 1] == [events[0]] + tail;
      ChosenCons(events[0].stat, events[0].value, n, tail, st, s.Get(st));
      LastChoiceCons(events[0], tail, st);
    } else {
      assert events[..k - 1] == [];
    }
  }

  /** A stage never reads past its first "next": later events change nothing. */
  lemma {:induction false} StageIgnoresLaterEvents(s: AbilityScores, events: seq<Event>, more: seq<Event>)
    requires Stage(s, events).Done?
    ensures var r := Stage(s, events);
            Stage(s, events[..Consumed(events, r)] + more) == Done(r.scores, more)
    decreases |events|
  {
    var r := Stage(s, events);
    var k := Consumed(events, r);
    CutTail(events, k, more);
    if events[0].Select? {
      var s' := s.With(events[0].stat, ParseInt(events[0].value).value);
      StageIgnoresLaterEvents(s', events[1..], more);
    }
  }

  /** Dropping the head of a cut-and-extended sequence. */
  lemma CutTail<T>(events: seq<T>, k: nat, more: seq<T>)
    requires 0 < k <= |events|
    ensures (events[..k] + more)[0] == events[0]
    ensures (events[..k] + more)[1..] == events[1..][..k - 1] + more
  {
    assert (events[..k] + more)[1..] == events[1..][..k - 1] + more;
  }

  /** A stage changes only the stats its events select. */
  lemma {:induction false} StageConfined(s: AbilityScores, events: seq<Event>, screen: Screen, st: Stat)
    requires forall i :: 0 <= i < |events| && events[i].Select? ==> screen.Shows(events[i].stat)
    requires !screen.Shows(st)
    ensures Stage(s, events).scores.Get(st) == s.Get(st)
    decreases |events|
  {
    if events != [] && events[0].Select? && ParseInt(events[0].value).Some? {
      var s' := s.With(events[0].stat, ParseInt(events[0].value).value);
      assert forall i :: 0 <= i < |events[1..]| ==> events[1..][i] == events[i + 1];
      StageConfined(s', events[1..], screen, st);
    }
  }

  /** Selections made through the stat menus never make `int()` fail. */
  lemma {:induction false} StageMenuNeverFails(s: AbilityScores, events: seq<Event>, screen: Screen)
    requires FromMenus(events, screen)
    ensures !Stage(s, events).BadValue?
    decreases |events|
  {
    if events != [] && events[0].Select? {
      StatOptionParses(events[0].value);
      var s' := s.With(events[0].stat, ParseInt(events[0].value).value);
      assert forall i :: 0 <= i < |events[1..]| ==> events[1..][i] == events[i + 1];
      StageMenuNeverFails(s', events[1..], screen);
    }
  }

  /** A stage fed menu selections and then "next" ends exactly at that "next". */
  lemma {:induction false} StageUpToNext(s: AbilityScores, selections: seq<Event>, screen: Screen, more: seq<Event>)
    requires NoNext(selections) && FromMenus(selections, screen)
    ensures var r := Stage(s, selections + [Next] + more);
            r.Done? && r.rest == more
    decreases |selections|
  {
    var events := selections + [Next] + more;
    if selections == [] {
      assert events[0] == Next && events[1..] == more;
    } else {
      assert events[0] == selections[0];
      assert events[1..] == selections[1..] + [Next] + more;
      StatOptionParses(selections[0].value);
      var s' := s.With(selections[0].stat, ParseInt(selections[0].value).value);
      StageUpToNext(s', selections[1..], screen, more);
    }
  }

  /** With no selection of `st`, the chosen score is the prior one. */
  lemma {:induction false} ChosenUnselected(events: seq<Event>, st: Stat, default: int)
    requires forall i :: 0 <= i < |events| && events[i].Select? ==> events[i].stat != st
    ensures Chosen(events, st, default) == default
    decreases |events|
  {
    if events != [] {
      ChosenUnselected(events[..|events| - 1], st, default);
    }
  }

  /** The menus of one screen never select a stat the other screen shows. */
  lemma ScreenSkips(events: seq<Event>, screen: Screen, st: Stat)
    requires FromMenus(events, screen) && !screen.Shows(st)
    ensures forall i :: 0 <= i < |events| && events[i].Select? ==> events[i].stat != st
  {
    forall i | 0 <= i < |events| && events[i].Select?
      ensures events[i].stat != st
    {
      assert screen.Shows(events[i].stat);
    }
  }

  /** The outcome of both selection screens. */
  datatype StatsOutcome =
    | Completed(scores: AbilityScores, rest: seq<Event>)
    | Rejected(scores: AbilityScores)
    | Pending(scores: AbilityScores)

  /** Two selection stages in a row, the second starting after the first "next". */
  function StatScreens(s: AbilityScores, events: seq<Event>): StatsOutcome {
    match Stage(s, events)
    case BadValue(s1) => Rejected(s1)
    case Waiting(s1) => Pending(s1)
    case Done(s1, rest) =>
      match Stage(s1, rest)
      case BadValue(s2) => Rejected(s2)
      case Waiting(s2) => Pending(s2)
      case Done(s2, rest2) => Completed(s2, rest2)
  }

  /**
   * A screen fed menu selections and then "next" hands on exactly the
   * events after that "next", with each stat set by its last selection.
   */
  lemma ScreenResult(s: AbilityScores, selections: seq<Event>, screen: Screen, more: seq<Event>, st: Stat)
    requires NoNext(selections) && FromMenus(selections, screen)
    ensures var r := Stage(s, selections + [Next] + more);
            r.Done? && r.rest == more && r.scores.Get(st) == Chosen(selections, st, s.Get(st))
  {
    var events := selections + [Next] + more;
    StageUpToNext(s, selections, screen, more);
    StageLastWriteWins(s, events, st);
    assert events[..|selections|] == selections;
  }

  /** Both screens finished: the first "next" ends the first, the second "next" the second. */
  lemma BothScreensFinish(s: AbilityScores, first: seq<Event>, second: seq<Event>, more: seq<Event>, st: Stat)
    requires NoNext(first) && FromMenus(first, FirstScreen)
    requires NoNext(second) && FromMenus(second, SecondScreen)
    ensures var r1 := Stage(s, first + [Next] + second + [Next] + more);
            var r2 := Stage(r1.scores, second + [Next] + more);
            && r1.Done? && r1.rest == second + [Next] + more
            && r2.Done? && r2.rest == more
            && r1.scores.Get(st) == Chosen(first, st, s.Get(st))
            && r2.scores.Get(st) == Chosen(second, st, r1.scores.Get(st))
            && StatScreens(s, first + [Next] + second + [Next] + more) == Completed(r2.scores, more)
  {
    var tail := second + [Next] + more;
    assert first + [Next] + second + [Next] + more == first + [Next] + tail;
    ScreenResult(s, first, FirstScreen, tail, st);
    var r1 := Stage(s, first + [Next] + tail);
    ScreenResult(r1.scores, second, SecondScreen, more, st);
  }

  /**
   * Through the two screens, strength, dexterity and constitution take their
   * last selection on the first screen and intelligence, wisdom and charisma
   * their last selection on the second; a stat never selected keeps its value.
   */
  lemma TwoScreens(s: AbilityScores, first: seq<Event>, second: seq<Event>, more: seq<Event>, st: Stat)
    requires NoNext(first) && FromMenus(first, FirstScreen)
    requires NoNext(second) && FromMenus(second, SecondScreen)
    ensures var r := StatScreens(s, first + [Next] + second + [Next] + more);
            && r.Completed? && r.rest == more
            && r.scores.Get(st) == if FirstScreen.Shows(st) then Chosen(first, st, s.Get(st))
                                   else Chosen(second, st, s.Get(st))
  {
    BothScreensFinish(s, first, second, more, st);
    var r1 := Stage(s, first + [Next] + second + [Next] + more);
    if FirstScreen.Shows(st) {
      ScreenSkips(second, SecondScreen, st);
      ChosenUnselected(second, st, r1.scores.Get(st));
    } else {
      ScreenSkips(first, FirstScreen, st);
      ChosenUnselected(first, st, s.Get(st));
    }
  }

  /**
   * One selection stage against the character record: each event is read
   * in turn, a selection overwrites its stat through `__setattr__`, and
   * "next" ends the loop.
   */
  method RunStage(c: Character, events: seq<Event>) returns (r: StageResult)
    modifies c`strength, c`dexterity, c`constitution, c`intelligence, c`wisdom, c`charisma
    ensures r == Stage(old(c.Scores()), events)
    ensures c.Scores() == r.scores
  {
    var i := 0;
    var finished := false;
    while !finished
      invariant 0 <= i <= |events|
      invariant finished ==> 0 < i && events[i - 1] == Next
      invariant Stage(old(c.Scores()), events) ==
        if finished then Done(c.Scores(), events[i..]) else Stage(c.Scores(), events[i..])
      decreases |events| - i
    {
      if i == |events| {
        return Waiting(c.Scores());
      }
      var e := events[i];
      assert events[i..][1..] == events[i + 1..];
      i := i + 1;
      if e.Next? {
        finished := true;
      } else {
        var value := ParseInt(e.value);
        if value.None? {
          return BadValue(c.Scores());
        }
        c.SetStat(e.stat, value.value);
      }
    }
    r := Done(c.Scores(), events[i..]);
  }

  /** Both stat screens, one after the other, writing the choices into the character. */
  method RunScreens(c: Character, events: seq<Event>) returns (r: StatsOutcome)
    modifies c`strength, c`dexterity, c`constitution, c`intelligence, c`wisdom, c`charisma
    ensures r == StatScreens(old(c.Scores()), events)
    ensures c.Scores() == r.scores
  {
    var first := RunStage(c, events);
    match first
    case BadValue(s1) => r := Rejected(s1);
    case Waiting(s1) => r := Pending(s1);
    case Done(s1, rest) =>
      var second := RunStage(c, rest);
      match second
      case BadValue(s2) => r := Rejected(s2);
      case Waiting(s2) => r := Pending(s2);
      case Done(s2, rest2) => r := Completed(s2, rest2);
  }

  /**
   * How a dialogue ends: `save` called on the record (which the database
   * may still refuse), the "must be a number" notice, or still waiting.
   */
  datatype Outcome = SaveCalled | NotANumber | AwaitingInput

  /** What the character dialogue tells the user once the stat screens have run. */
  function Verdict(stats: StatsOutcome): Outcome {
    match stats
    case Completed(_, _) => SaveCalled
    case Rejected(_) => NotANumber
    case Pending(_) => AwaitingInput
  }

  /** The field ids of the item form, which the item dialogue reads. */
  const ItemFormIds: seq<string> := ["name", "description", "level", "effect"]
  /** The field ids of the character form, which the character dialogue reads. */
  const CharacterFormIds: seq<string> := ["name", "description", "level"]

  /** The prefill of the item edit form; a missing effect leaves its input empty. */
  function ItemDefaults(e: Entity): map<string, string>
    requires e.ItemRecord?
  {
    map["name" := e.name, "description" := e.description, "level" := IntToString(e.level)]
      + (if e.effect.Some? then map["effect" := e.effect.value] else map[])
  }

  /** The item form: blank for a new item, prefilled from the record when editing. */
  function ItemForm(existing: Option<Entity>): Modal
    requires existing.Some? ==> existing.value.ItemRecord?
  {
    match existing
    case None => NameDescriptionModal("Создать вещь", effectable := true)
    case Some(e) => NameDescriptionModal("Изменить вещь", effectable := true, defaults := ItemDefaults(e))
  }

  /** The character form: blank for a new character, prefilled from the record when editing. */
  function CharacterForm(existing: Option<Entity>): Modal
    requires existing.Some? ==> existing.value.CharacterRecord?
  {
    match existing
    case None => NameDescriptionModal("Создать персонажа")
    case Some(e) =>
      NameDescriptionModal("Изменить персонажа",
        defaults := map["name" := e.name, "description" := e.description, "level" := IntToString(e.level)])
  }

  /**
   * The item form asks for exactly the fields the item dialogue reads, and
   * when editing, the prefilled level reads back as the stored level, so an
   * unchanged edit form never draws the "must be a number" notice.
   */
  lemma ItemFormReadsBack(existing: Option<Entity>)
    requires existing.Some? ==> existing.value.ItemRecord?
    ensures var m := ItemForm(existing);
            && FieldIds(m.fields) == ItemFormIds
            && (existing.Some? ==> m.fields[2].value.Some? &&
                                   ParseInt(m.fields[2].value.value) == Some(existing.value.level))
  {
    if existing.Some? {
      IntToStringRoundTrip(existing.value.level);
    }
  }

  /** The same for the character form, which has no effect input. */
  lemma CharacterFormReadsBack(existing: Option<Entity>)
    requires existing.Some? ==> existing.value.CharacterRecord?
    ensures var m := CharacterForm(existing);
            && FieldIds(m.fields) == CharacterFormIds
            && (existing.Some? ==> m.fields[2].value.Some? &&
                                   ParseInt(m.fields[2].value.value) == Some(existing.value.level))
  {
    if existing.Some? {
      IntToStringRoundTrip(existing.value.level);
    }
  }

  /**
   * `modify_or_create_item` after the form is submitted: copy the answers
   * into the item (the level through `int()`), then decode the one value
   * picked in the bulk menu (`None`: no pick has arrived yet) and save.
   * A `ValueError` from either parse ends the dialogue unsaved.
   */
  method ModifyOrCreateItem(item: Item, image: Option<string>, form: map<string, string>,
                            pick: Option<string>) returns (outcome: Outcome)
    requires "name" in form && "description" in form && "level" in form && "effect" in form
    modifies item
    ensures item.imageUrl == if image.Some? then image else old(item.imageUrl)
    ensures item.name == form["name"] && item.description == form["description"]
    ensures ParseInt(form["level"]).None? ==>
      outcome == NotANumber && item.level == old(item.level) &&
      item.effect == old(item.effect) && item.bulk == old(item.bulk)
    ensures ParseInt(form["level"]).Some? ==>
      && item.level == ParseInt(form["level"]).value
      && item.effect == Some(form["effect"])
      && (pick.None? ==> outcome == AwaitingInput && item.bulk == old(item.bulk))
      && (pick.Some? && DecodeBulk(pick.value).None? ==> outcome == NotANumber && item.bulk == old(item.bulk))
      && (pick.Some? && DecodeBulk(pick.value).Some? ==> outcome == SaveCalled && item.bulk == DecodeBulk(pick.value).value)
    ensures outcome == SaveCalled ==>
      (var shown := ToEmbed(item.Snapshot()).fields[2];
       shown.name == BulkLabel && shown.value.Some? && DecodeBulk(shown.value.value) == Some(item.bulk))
  {
    if image.Some? {
      item.imageUrl := image;
    }
    item.name := form["name"];
    item.description := form["description"];
    var level := ParseInt(form["level"]);
    if level.None? {
      return NotANumber;
    }
    item.level := level.value;
    item.effect := Some(form["effect"]);
    if pick.None? {
      return AwaitingInput;
    }
    var ok := item.TxtToBulk(pick.value);
    outcome := if ok then SaveCalled else NotANumber;
    if ok {
      ItemCardShowsBulk(item.Snapshot());
    }
  }

  /**
   * The first half of `modify_or_create_character` once the form is
   * submitted: copy the picture, the author's id (when creating) and the
   * answers, and set the level when `int()` accepts it.
   */
  method ApplyCharacterForm(c: Character, image: Option<string>, author: Option<int>,
                            form: map<string, string>) returns (level: Option<int>)
    requires "name" in form && "description" in form && "level" in form
    modifies c`imageUrl, c`discordId, c`name, c`description, c`level
    ensures level == ParseInt(form["level"])
    ensures c.imageUrl == if image.Some? then image else old(c.imageUrl)
    ensures c.discordId == if author.Some? then author.value else old(c.discordId)
    ensures c.name == form["name"] && c.description == form["description"]
    ensures c.level == if level.Some? then level.value else old(c.level)
  {
    if image.Some? {
      c.imageUrl := image;
    }
    if author.Some? {
      c.discordId := author.value;
    }
    c.name := form["name"];
    c.description := form["description"];
    level := ParseInt(form["level"]);
    if level.Some? {
      c.level := level.value;
    }
  }

  /**
   * `modify_or_create_character` after the form is submitted: copy the
   * answers (and the author's id when creating), parse the level, then run
   * the two selection screens over the component events and save.
   */
  method ModifyOrCreateCharacter(c: Character, image: Option<string>, author: Option<int>,
                                 form: map<string, string>, events: seq<Event>) returns (outcome: Outcome)
    requires "name" in form && "description" in form && "level" in form
    modifies c
    ensures c.imageUrl == if image.Some? then image else old(c.imageUrl)
    ensures c.discordId == if author.Some? then author.value else old(c.discordId)
    ensures c.name == form["name"] && c.description == form["description"]
    ensures c.className == old(c.className)
    ensures ParseInt(form["level"]).None? ==>
      outcome == NotANumber && c.level == old(c.level) && c.Scores() == old(c.Scores())
    ensures ParseInt(form["level"]).Some? ==>
      && c.level == ParseInt(form["level"]).value
      && c.Scores() == StatScreens(old(c.Scores()), events).scores
      && outcome == Verdict(StatScreens(old(c.Scores()), events))
    ensures outcome == SaveCalled ==>
      ToEmbed(c.Snapshot()).fields[2..] == [EmbedField(StatsLabel, Some(StatsBlock(c.Scores())))]
  {
    var level := ApplyCharacterForm(c, image, author, form);
    if level.None? {
      return NotANumber;
    }
    var stats := RunScreens(c, events);
    outcome := Verdict(stats);
  }

}

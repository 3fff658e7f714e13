/** The command-line monitor (src/app.py): matching typed text against a
    catalog list, resolving region, specialization, clinic and doctor, the
    time-window filter on slots, the notification text, and the polling
    loop of `new_monitoring`.

    Dates are day numbers and times are minutes after midnight. The
    interactive pick is not modelled as a choice: a resolution either takes
    an entry or names the list the user is asked to pick from. */
module App {
  import opened Wrappers
  import opened Seqs
  import opened Client

  // ---------------------------------------------------------------------
  // Matching typed text
  // ---------------------------------------------------------------------

  /** `str.lower()` on the ASCII letters. */
  function Lower(s: string): (r: string)
    ensures |r| == |s|
    ensures forall i :: 0 <= i < |s| ==> r[i] == if 'A' <= s[i] <= 'Z' then (s[i] as int + 32) as char else s[i]
  {
    if s == [] then []
    else Lower(s[..|s| - 1]) + [if 'A' <= s[|s| - 1] <= 'Z' then (s[|s| - 1] as int + 32) as char else s[|s| - 1]]
  }

  predicate IsPrefix(t: string, s: string) {
    |t| <= |s| && s[..|t|] == t
  }

  /** Python's `t in s` on strings: `t` occurs somewhere in `s`. */
  predicate Contains(s: string, t: string)
    decreases |s|
  {
    IsPrefix(t, s) || (s != [] && Contains(s[1..], t))
  }

  /** `t` occurs in `s` starting at position `k`. */
  predicate OccursAt(s: string, t: string, k: int) {
    0 <= k <= |s| - |t| && s[k..k + |t|] == t
  }

  /** `Contains` means: `t` occurs at some position of `s`. */
  lemma {:induction false} ContainsAt(s: string, t: string)
    ensures Contains(s, t) <==> exists k :: OccursAt(s, t, k)
    decreases |s|
  {
    if IsPrefix(t, s) {
      assert OccursAt(s, t, 0);
    } else if s == [] {
      assert forall k :: !OccursAt(s, t, k);
    } else {
      ContainsAt(s[1..], t);
      if Contains(s[1..], t) {
        var k :| OccursAt(s[1..], t, k);
        assert s[k + 1..k + 1 + |t|] == s[1..][k..k + |t|];
        assert OccursAt(s, t, k + 1);
      }
      if exists k :: OccursAt(s, t, k) {
        var k :| OccursAt(s, t, k);
        assert k != 0;
        assert s[1..][k - 1..k - 1 + |t|] == s[k..k + |t|];
        assert OccursAt(s[1..], t, k - 1);
      }
    }
  }

  /** The test `match_input_to_filter` applies to one entry. */
  predicate MatchesText(text: string, option: FilterOption) {
    Contains(Lower(option.value), Lower(text))
  }

  /** `match_input_to_filter`. */
  method MatchInputToFilter(text: string, options: seq<FilterOption>) returns (selected: seq<FilterOption>)
    ensures selected == Filter(o => MatchesText(text, o), options)
  {
    selected := [];
    for i := 0 to |options|
      invariant selected == Filter(o => MatchesText(text, o), options[..i])
    {
      FilterSnoc(o => MatchesText(text, o), options[..i], options[i]);
      assert options[..i + 1] == options[..i] + [options[i]];
      if MatchesText(text, options[i]) {
        selected := selected + [options[i]];
      }
    }
    assert options[..|options|] == options;
  }

  /** What the match keeps: exactly the entries whose value contains the
      text, ignoring the case of ASCII letters, in their original order. */
  lemma MatchedEntries(text: string, options: seq<FilterOption>, more: seq<FilterOption>)
    ensures forall o :: o in Filter(x => MatchesText(text, x), options) <==>
      o in options && exists k :: OccursAt(Lower(o.value), Lower(text), k)
    ensures Filter(x => MatchesText(text, x), options + more) ==
            Filter(x => MatchesText(text, x), options) + Filter(x => MatchesText(text, x), more)
  {
    forall o
      ensures o in Filter(x => MatchesText(text, x), options) <==>
        o in options && exists k :: OccursAt(Lower(o.value), Lower(text), k)
    {
      MatchesAt(text, o);
    }
    FilterAppend(x => MatchesText(text, x), options, more);
  }

  /** One entry matches exactly when the lowered text occurs in its lowered
      value. */
  lemma MatchesAt(text: string, o: FilterOption)
    ensures MatchesText(text, o) <==> exists k :: OccursAt(Lower(o.value), Lower(text), k)
  {
    var value, needle := Lower(o.value), Lower(text);
    ContainsAt(value, needle);
    if MatchesText(text, o) {
      var k :| OccursAt(value, needle, k);
      assert OccursAt(Lower(o.value), Lower(text), k);
      assert exists j :: OccursAt(Lower(o.value), Lower(text), j);
    }
  }

  /** Empty text matches every entry. */
  lemma EmptyTextMatchesAll(options: seq<FilterOption>)
    ensures Filter(x => MatchesText("", x), options) == options
  {
    forall i | 0 <= i < |options|
      ensures MatchesText("", options[i])
    {
      assert Lower("") == "";
    }
    FilterKeepsAll(x => MatchesText("", x), options);
  }

  // ---------------------------------------------------------------------
  // Resolving a criterion
  // ---------------------------------------------------------------------

  /** How a criterion is settled: an entry is taken as it is, or the user
      is asked to pick from a list (`pick_from_items`). */
  datatype Resolution = Take(option: FilterOption) | PickFrom(items: seq<FilterOption>)

  /** The first entry with the given id: `next((o for o in options if
      o["id"] == id), None)`. */
  function FirstWithId(id: Id, options: seq<FilterOption>): (r: Option<nat>)
    ensures r.Some? ==> r.value < |options| && options[r.value].id == Some(id)
                        && forall j :: 0 <= j < r.value ==> options[j].id != Some(id)
    ensures r.None? ==> forall j :: 0 <= j < |options| ==> options[j].id != Some(id)
  {
    if options == [] then None
    else if options[0].id == Some(id) then Some(0)
    else match FirstWithId(id, options[1..])
      case None => None
      case Some(k) => Some(k + 1)
  }

  /** A criterion given by id: the first entry with that id, or a pick
      from the full list when there is none. */
  function ResolveById(id: Id, all: seq<FilterOption>): (r: Resolution)
    ensures r.Take? <==> exists j :: 0 <= j < |all| && all[j].id == Some(id)
    ensures r.Take? ==> (r.option.id == Some(id)
              && exists j :: 0 <= j < |all| && all[j] == r.option && forall k :: 0 <= k < j ==> all[k].id != Some(id))
    ensures r.PickFrom? ==> r.items == all
  {
    match FirstWithId(id, all)
    case Some(j) => Take(all[j])
    case None => PickFrom(all)
  }

  /** A criterion given as text: no match asks for a pick from the full
      list, several matches ask for a pick among them, a single match is
      taken without asking. */
  function ResolveByText(text: string, all: seq<FilterOption>): (r: Resolution)
    ensures var matches := Filter(o => MatchesText(text, o), all);
      && (r.Take? <==> |matches| == 1)
      && (r.Take? ==> r.option == matches[0] && r.option in all && MatchesText(text, r.option))
      && (matches == [] ==> r == PickFrom(all))
      && (|matches| > 1 ==> r == PickFrom(matches))
  {
    var matches := Filter(o => MatchesText(text, o), all);
    if matches == [] then PickFrom(all)
    else if |matches| > 1 then PickFrom(matches)
    else Take(matches[0])
  }

  /** The "any" entry an empty clinic or doctor answer stands for. */
  const AnyOption := FilterOption(None, "Any")

  /** Region and specialization: by id when one was given on the command
      line, by typed text otherwise. */
  function ResolveRequired(givenId: Option<Id>, typed: string, all: seq<FilterOption>): (r: Resolution)
    ensures givenId.Some? ==> r == ResolveById(givenId.value, all)
    ensures givenId.None? ==> r == ResolveByText(typed, all)
  {
    if givenId.Some? then ResolveById(givenId.value, all) else ResolveByText(typed, all)
  }

  /** Clinic and doctor: as `ResolveRequired`, except that an empty
      answer to the prompt means any clinic or doctor. */
  function ResolveOptional(givenId: Option<Id>, typed: string, all: seq<FilterOption>): (r: Resolution)
    ensures givenId.None? && typed == "" ==> r == Take(AnyOption) && !Truthy(r.option.id)
    ensures givenId.None? && typed != "" ==> r == ResolveByText(typed, all)
    ensures givenId.Some? ==> r == ResolveById(givenId.value, all)
  {
    if givenId.Some? then ResolveById(givenId.value, all)
    else if typed == "" then Take(AnyOption)
    else ResolveByText(typed, all)
  }

  // ---------------------------------------------------------------------
  // Slots and the time window
  // ---------------------------------------------------------------------

  const MinutesPerDay: int := 1440

  /** A moment: a day number and the minute of that day. */
  datatype DateTime = DateTime(day: int, minute: int)

  /** `a <= b` on datetimes. */
  predicate NotAfter(a: DateTime, b: DateTime) {
    a.day < b.day || (a.day == b.day && a.minute <= b.minute)
  }

  /** One slot of the search reply; `dateText` is its `%H:%M %d-%m-%Y`
      rendering. */
  datatype Slot = Slot(specialty: string, clinic: string, doctor: string, at: DateTime, dateText: string)

  /** The monitoring window: times of day from the command line and the
      end date, which is parsed as midnight at the start of that day. */
  datatype Window = Window(timeStart: int, timeEnd: int, dateEnd: DateTime)

  /** The filter of the polling loop. */
  predicate InWindow(w: Window, slot: Slot) {
    w.timeStart <= slot.at.minute <= w.timeEnd && NotAfter(slot.at, w.dateEnd)
  }

  /** The filter loop of `new_monitoring`. */
  method FilterSlots(w: Window, slots: seq<Slot>) returns (kept: seq<Slot>)
    ensures kept == Filter(s => InWindow(w, s), slots)
  {
    kept := [];
    for i := 0 to |slots|
      invariant kept == Filter(s => InWindow(w, s), slots[..i])
    {
      FilterSnoc(s => InWindow(w, s), slots[..i], slots[i]);
      assert slots[..i + 1] == slots[..i] + [slots[i]];
      if InWindow(w, slots[i]) {
        kept := kept + [slots[i]];
      }
    }
    assert slots[..|slots|] == slots;
  }

  /** Both ends of the time window are inclusive, and the kept slots are
      those of the window in server order. */
  lemma WindowBounds(w: Window, slots: seq<Slot>, slot: Slot)
    requires NotAfter(slot.at, w.dateEnd)
    ensures slot.at.minute == w.timeStart && w.timeStart <= w.timeEnd ==> InWindow(w, slot)
    ensures slot.at.minute == w.timeEnd && w.timeStart <= w.timeEnd ==> InWindow(w, slot)
    ensures slot.at.minute < w.timeStart || slot.at.minute > w.timeEnd ==> !InWindow(w, slot)
    ensures forall s :: s in Filter(x => InWindow(w, x), slots) <==> s in slots && InWindow(w, s)
  {
  }

  /** Because the end date is midnight, a slot on the end day is kept only
      when it starts at 00:00: every later slot of that day is dropped,
      whatever the time window. */
  lemma EndDayIsExclusive(w: Window, slot: Slot)
    requires w.dateEnd.minute == 0
    requires slot.at.day == w.dateEnd.day && slot.at.minute > 0
    ensures !InWindow(w, slot)
  {
  }

  // ---------------------------------------------------------------------
  // Notification text
  // ---------------------------------------------------------------------

  const Header: string := "Found the following available slots:\n"
  const Separator: string := "-----------------------\n"

  /** The lines that describe one slot. */
  function SlotBlock(s: Slot): string {
    "Specialization: " + s.specialty + "\n" + "Clinic: " + s.clinic + "\n"
    + "Doctor: " + s.doctor + "\n" + "Date: " + s.dateText + "\n"
  }

  /** Strings joined with `sep` between each two in a row. */
  function Join(blocks: seq<string>, sep: string): string {
    if blocks == [] then ""
    else if |blocks| == 1 then blocks[0]
    else blocks[0] + sep + Join(blocks[1..], sep)
  }

  /** Appending a string adds the separator, unless it is the first, and
      then the string. */
  lemma {:induction false} JoinSnoc(blocks: seq<string>, b: string, sep: string)
    ensures Join(blocks + [b], sep) == Join(blocks, sep) + (if blocks == [] then "" else sep) + b
    decreases |blocks|
  {
    if |blocks| == 1 {
      assert blocks + [b] == [blocks[0], b];
      assert (blocks + [b])[1..] == [b];
    } else if |blocks| > 1 {
      var tail := blocks[1..];
      assert (blocks + [b])[0] == blocks[0];
      assert (blocks + [b])[1..] == tail + [b];
      JoinSnoc(tail, b, sep);
      var j := Join(tail, sep);
      assert Join(blocks + [b], sep) == blocks[0] + sep + (j + sep + b);
      assert blocks[0] + sep + (j + sep + b) == (blocks[0] + sep + j) + sep + b;
    }
  }

  /** The block of every slot, in order. */
  function Blocks(slots: seq<Slot>): (r: seq<string>)
    ensures |r| == |slots|
  {
    if slots == [] then [] else Blocks(slots[..|slots| - 1]) + [SlotBlock(slots[|slots| - 1])]
  }

  lemma BlocksSnoc(slots: seq<Slot>, s: Slot)
    ensures Blocks(slots + [s]) == Blocks(slots) + [SlotBlock(s)]
  {
    assert (slots + [s])[..|slots|] == slots;
  }

  lemma {:induction false} BlocksCons(s: Slot, slots: seq<Slot>)
    ensures Blocks([s] + slots) == [SlotBlock(s)] + Blocks(slots)
    decreases |slots|
  {
    if slots == [] {
      assert [s] + slots == [s];
      assert Blocks([s][..0]) == [];
    } else {
      var init, last := slots[..|slots| - 1], slots[|slots| - 1];
      assert [s] + slots == ([s] + init) + [last];
      BlocksSnoc([s] + init, last);
      BlocksCons(s, init);
      BlocksSnoc(init, last);
      assert slots == init + [last];
    }
  }

  /** Regrouping the text built so far with the next piece. */
  lemma Regroup(h: string, done: string, sep: string, b: string)
    ensures (h + done) + sep + b == h + (done + sep + b)
  {
  }

  /** The blocks joined by separator lines. */
  function JoinedBlocks(slots: seq<Slot>): string {
    Join(Blocks(slots), Separator)
  }

  /** Building the text slot by slot, with a separator before every block
      but the first, gives the header followed by the joined blocks. */
  lemma JoinedBlocksSnoc(slots: seq<Slot>, s: Slot)
    ensures JoinedBlocks(slots + [s]) ==
            JoinedBlocks(slots) + (if slots == [] then "" else Separator) + SlotBlock(s)
  {
    BlocksSnoc(slots, s);
    JoinSnoc(Blocks(slots), SlotBlock(s), Separator);
  }

  /** The loop that builds `notifier_text`. */
  method NotifierText(slots: seq<Slot>) returns (text: string)
    ensures text == Header + JoinedBlocks(slots)
  {
    text := Header;
    for idx := 0 to |slots|
      invariant text == Header + JoinedBlocks(slots[..idx])
    {
      ghost var done := JoinedBlocks(slots[..idx]);
      JoinedBlocksSnoc(slots[..idx], slots[idx]);
      assert slots[..idx + 1] == slots[..idx] + [slots[idx]];
      ghost var sep := if idx != 0 then Separator else "";
      assert JoinedBlocks(slots[..idx + 1]) == done + sep + SlotBlock(slots[idx]);
      Regroup(Header, done, sep, SlotBlock(slots[idx]));
      if idx != 0 {
        text := text + Separator;
      } else {
        assert text + sep == text;
      }
      text := text + SlotBlock(slots[idx]);
    }
    assert slots[..|slots|] == slots;
  }

  /** The text starts with the header, holds one block per slot, and the
      blocks of two slots in a row are parted by exactly one separator. */
  lemma NotifierTextShape(first: Slot, rest: seq<Slot>)
    ensures Header + JoinedBlocks([first]) == Header + SlotBlock(first)
    ensures rest != [] ==>
      Header + JoinedBlocks([first] + rest) == Header + SlotBlock(first) + Separator + JoinedBlocks(rest)
  {
    BlocksCons(first, []);
    assert [first] + [] == [first];
    if rest != [] {
      BlocksCons(first, rest);
      var bs := Blocks([first] + rest);
      assert bs[0] == SlotBlock(first) && bs[1..] == Blocks(rest);
      Regroup(Header, SlotBlock(first), Separator, JoinedBlocks(rest));
    }
  }

  // ---------------------------------------------------------------------
  // The polling loop
  // ---------------------------------------------------------------------

  /** What one call of `get_available_slots` in the loop does. */
  datatype Poll =
    | Slots(slots: seq<Slot>)
    | StatusError(status: int)   // `httpx.HTTPStatusError`
    | TimedOut                   // `httpx.ConnectTimeout` or `httpx.ReadTimeout`
    | Raises                     // anything else, e.g. `AuthenticationError`

  /** What the loop does to the outside world. */
  datatype Effect = Search(query: SlotQuery) | Send(message: string) | Sleep(seconds: int)

  /** How the observed part of the loop ends. */
  datatype Ending = Notified(kept: seq<Slot>) | Crashed | StillPolling

  datatype Run = Run(effects: seq<Effect>, ending: Ending)

  /** The fixed parameters of a monitoring run. */
  datatype Monitoring = Monitoring(
    region: Id, specialization: Id, doctor: Option<Id>, clinic: Option<Id>,
    dateStart: int, window: Window, notifier: bool)

  /** The query every cycle sends: `date_start` is never advanced. */
  function QueryOf(m: Monitoring): SlotQuery {
    SlotSearchParams(m.region, m.specialization, m.dateStart, m.doctor, m.clinic)
  }

  /** `httpx.codes.is_server_error`. */
  predicate IsServerError(status: int) {
    500 <= status <= 599
  }

  /** A message to the notifier, when one is configured. */
  function Notify(m: Monitoring, message: string): seq<Effect> {
    if m.notifier then [Send(message)] else []
  }

  /** A failed search: the message to the notifier, then the back-off. */
  function Backoff(m: Monitoring, message: string, seconds: int): seq<Effect> {
    [Search(QueryOf(m))] + Notify(m, message) + [Sleep(seconds)]
  }

  /** One cycle of the loop: its effects, and the ending when the loop
      stops there. */
  function Cycle(m: Monitoring, p: Poll): (seq<Effect>, Option<Ending>) {
    match p
    case StatusError(status) =>
      (Backoff(m, if IsServerError(status) then "Server error." else "API error.", 30), None)
    case TimedOut => (Backoff(m, "Timeout error", 60), None)
    case Raises => ([Search(QueryOf(m))], Some(Crashed))
    case Slots(slots) =>
      var kept := Filter(s => InWindow(m.window, s), slots);
      if kept != [] then ([Search(QueryOf(m))] + Notify(m, Header + JoinedBlocks(kept)), Some(Notified(kept)))
      else ([Search(QueryOf(m)), Sleep(30)], None)
  }

  /** The loop over the polls observed, until it returns or raises; when
      the polls run out first, it is still polling. */
  function Monitor(m: Monitoring, polls: seq<Poll>): Run
    decreases |polls|
  {
    if polls == [] then Run([], StillPolling)
    else
      var (effects, ending) := Cycle(m, polls[0]);
      if ending.Some? then Run(effects, ending.value)
      else
        var rest := Monitor(m, polls[1..]);
        Run(effects + rest.effects, rest.ending)
  }

  /** One pass of the body of the `while True` loop. */
  method PollOnce(m: Monitoring, p: Poll) returns (effects: seq<Effect>, ending: Option<Ending>)
    ensures (effects, ending) == Cycle(m, p)
  {
    var query := QueryOf(m);
    effects := [Search(query)];
    ending := None;
    match p {
      case StatusError(status) =>
        if IsServerError(status) {
          if m.notifier {
            effects := effects + [Send("Server error.")];
          }
        } else {
          if m.notifier {
            effects := effects + [Send("API error.")];
          }
        }
        effects := effects + [Sleep(30)];
        assert effects == Backoff(m, if IsServerError(status) then "Server error." else "API error.", 30);
      case TimedOut =>
        if m.notifier {
          effects := effects + [Send("Timeout error")];
        }
        effects := effects + [Sleep(60)];
        assert effects == Backoff(m, "Timeout error", 60);
      case Raises =>
        ending := Some(Crashed);
      case Slots(slots) =>
        var kept := FilterSlots(m.window, slots);
        if kept != [] {
          var text := NotifierText(kept);
          if m.notifier {
            effects := effects + [Send(text)];
          }
          assert effects == [Search(query)] + Notify(m, text);
          ending := Some(Notified(kept));
        } else {
          effects := effects + [Sleep(30)];
          assert effects == [Search(query), Sleep(30)];
        }
    }
  }

  /** Unfolding `Monitor` at position `i`. */
  lemma MonitorUnfold(m: Monitoring, polls: seq<Poll>, i: nat)
    requires i < |polls|
    ensures var (effects, ending) := Cycle(m, polls[i]);
      Monitor(m, polls[i..]) ==
        if ending.Some? then Run(effects, ending.value)
        else Run(effects + Monitor(m, polls[i + 1..]).effects, Monitor(m, polls[i + 1..]).ending)
  {
    assert polls[i..][0] == polls[i];
    assert polls[i..][1..] == polls[i + 1..];
  }

  /** The `while True` loop of `new_monitoring` over the polls observed. */
  method MonitorLoop(m: Monitoring, polls: seq<Poll>) returns (effects: seq<Effect>, ending: Ending)
    ensures Run(effects, ending) == Monitor(m, polls)
  {
    effects := [];
    var i := 0;
    ghost var target := Monitor(m, polls);
    assert polls[0..] == polls;
    AppendEmpty(target.effects);
    while i < |polls|
      invariant 0 <= i <= |polls|
      invariant target == Run(effects + Monitor(m, polls[i..]).effects, Monitor(m, polls[i..]).ending)
      decreases |polls| - i
    {
      MonitorUnfold(m, polls, i);
      var cycleEffects, stop := PollOnce(m, polls[i]);
      if stop.Some? {
        effects, ending := effects + cycleEffects, stop.value;
        return;
      }
      ghost var later := Monitor(m, polls[i + 1..]);
      AppendAssoc(effects, cycleEffects, later.effects);
      effects := effects + cycleEffects;
      i := i + 1;
    }
    assert polls[|polls|..] == [];
    AppendEmpty(effects);
    ending := StillPolling;
  }

  /** Every search of the loop is the same query: the start date, ids and
      clinic and doctor never change, whatever the replies were. */
  lemma {:induction false} SameQueryEveryCycle(m: Monitoring, polls: seq<Poll>)
    ensures forall e :: e in Monitor(m, polls).effects && e.Search? ==> e.query == QueryOf(m)
    decreases |polls|
  {
    if polls != [] {
      SameQueryEveryCycle(m, polls[1..]);
    }
  }

  /** A poll whose filtered slots are not empty. */
  predicate Hit(m: Monitoring, p: Poll) {
    p.Slots? && Filter(s => InWindow(m.window, s), p.slots) != []
  }

  /** A poll at which the loop leaves: a hit, or an unexpected exception. */
  predicate Stops(m: Monitoring, p: Poll) {
    p.Raises? || Hit(m, p)
  }

  /** `i` is the first poll at which the loop leaves. */
  predicate FirstStop(m: Monitoring, polls: seq<Poll>, i: int) {
    0 <= i < |polls| && Stops(m, polls[i]) && forall j :: 0 <= j < i ==> !Stops(m, polls[j])
  }

  /** The loop is still polling exactly when no poll observed makes it
      leave. */
  lemma {:induction false} StillPollingWhenNoStop(m: Monitoring, polls: seq<Poll>)
    ensures Monitor(m, polls).ending.StillPolling? <==> forall j :: 0 <= j < |polls| ==> !Stops(m, polls[j])
    decreases |polls|
  {
    if polls != [] && !Stops(m, polls[0]) {
      StillPollingWhenNoStop(m, polls[1..]);
      assert forall j :: 0 < j < |polls| ==> polls[j] == polls[1..][j - 1];
    }
  }

  /** When the loop leaves, it leaves at the first stopping poll: with a
      notification of that poll's kept slots after a hit, as a crash
      after an exception. */
  lemma {:induction false} LeavesAtFirstStop(m: Monitoring, polls: seq<Poll>, i: int)
    requires FirstStop(m, polls, i)
    ensures Hit(m, polls[i]) ==> Monitor(m, polls).ending == Notified(Filter(s => InWindow(m.window, s), polls[i].slots))
    ensures polls[i].Raises? ==> Monitor(m, polls).ending == Crashed
    decreases |polls|
  {
    if i > 0 {
      assert !Stops(m, polls[0]);
      assert polls[1..][i - 1] == polls[i];
      assert FirstStop(m, polls[1..], i - 1) by {
        forall j | 0 <= j < i - 1 ensures !Stops(m, polls[1..][j]) {
          assert polls[1..][j] == polls[j + 1];
        }
      }
      LeavesAtFirstStop(m, polls[1..], i - 1);
    }
  }

  /** A notification is sent only for slots inside the window, and never
      for an empty list. */
  lemma {:induction false} NotifiesOnlyWindowSlots(m: Monitoring, polls: seq<Poll>)
    ensures Monitor(m, polls).ending.Notified? ==>
      Monitor(m, polls).ending.kept != [] && forall s :: s in Monitor(m, polls).ending.kept ==> InWindow(m.window, s)
    decreases |polls|
  {
    if polls != [] {
      NotifiesOnlyWindowSlots(m, polls[1..]);
    }
  }

  /** Polls with nothing in the window never end the loop: each one is a
      search and a 30-second sleep, and nothing is sent. */
  lemma EmptyCyclesNeverStop(m: Monitoring, polls: seq<Poll>)
    requires forall i :: 0 <= i < |polls| ==> polls[i].Slots? && Filter(s => InWindow(m.window, s), polls[i].slots) == []
    ensures Monitor(m, polls).ending == StillPolling
    ensures |Monitor(m, polls).effects| == 2 * |polls|
    ensures forall i :: 0 <= i < |polls| ==>
              Monitor(m, polls).effects[2 * i] == Search(QueryOf(m)) && Monitor(m, polls).effects[2 * i + 1] == Sleep(30)
  {
    EmptyCyclesIdle(m, polls);
    IdlePollsAt(QueryOf(m), |polls|);
  }

  /** `n` cycles that each search and then sleep 30 seconds. */
  function IdlePolls(q: SlotQuery, n: nat): seq<Effect> {
    if n == 0 then [] else [Search(q), Sleep(30)] + IdlePolls(q, n - 1)
  }

  lemma {:induction false} IdlePollsAt(q: SlotQuery, n: nat)
    ensures |IdlePolls(q, n)| == 2 * n
    ensures forall i :: 0 <= i < n ==> IdlePolls(q, n)[2 * i] == Search(q) && IdlePolls(q, n)[2 * i + 1] == Sleep(30)
  {
    if n > 0 {
      IdlePollsAt(q, n - 1);
      var e, rest := IdlePolls(q, n), IdlePolls(q, n - 1);
      forall i | 1 <= i < n
        ensures e[2 * i] == Search(q) && e[2 * i + 1] == Sleep(30)
      {
        assert e[2 * i] == rest[2 * (i - 1)];
        assert e[2 * i + 1] == rest[2 * (i - 1) + 1];
      }
    }
  }

  lemma {:induction false} EmptyCyclesIdle(m: Monitoring, polls: seq<Poll>)
    requires forall i :: 0 <= i < |polls| ==> polls[i].Slots? && Filter(s => InWindow(m.window, s), polls[i].slots) == []
    ensures Monitor(m, polls) == Run(IdlePolls(QueryOf(m), |polls|), StillPolling)
    decreases |polls|
  {
    if polls != [] {
      EmptyCycle(m, polls[0]);
      MonitorStep(m, polls);
      EmptyCyclesIdle(m, polls[1..]);
    }
  }

  /** A cycle that does not leave the loop is followed by the rest of the
      polls. */
  lemma MonitorStep(m: Monitoring, polls: seq<Poll>)
    requires polls != [] && Cycle(m, polls[0]).1 == None
    ensures Monitor(m, polls).effects == Cycle(m, polls[0]).0 + Monitor(m, polls[1..]).effects
    ensures Monitor(m, polls).ending == Monitor(m, polls[1..]).ending
  {
  }

  /** A poll with nothing in the window is a search and a 30-second sleep. */
  lemma EmptyCycle(m: Monitoring, p: Poll)
    requires p.Slots? && Filter(s => InWindow(m.window, s), p.slots) == []
    ensures Cycle(m, p) == ([Search(QueryOf(m)), Sleep(30)], None)
  {
  }

  /** A transient failure sends its message only when a notifier is
      configured, backs off 30 seconds for an HTTP status and 60 for a
      timeout, and the next cycle sends the same query again. */
  lemma TransientFailure(m: Monitoring, p: Poll, rest: seq<Poll>)
    requires p.StatusError? || p.TimedOut?
    ensures Monitor(m, [p] + rest).ending == Monitor(m, rest).ending
    ensures Monitor(m, [p] + rest).effects ==
      [Search(QueryOf(m))]
      + (if !m.notifier then []
         else if p.TimedOut? then [Send("Timeout error")]
         else if IsServerError(p.status) then [Send("Server error.")]
         else [Send("API error.")])
      + [Sleep(if p.TimedOut? then 60 else 30)]
      + Monitor(m, rest).effects
  {
    assert ([p] + rest)[1..] == rest;
  }

  /** A cycle with slots in the window sends exactly one message, the
      notification text, when a notifier is configured, and nothing more
      happens after it. */
  lemma NotifiesOnce(m: Monitoring, slots: seq<Slot>, rest: seq<Poll>)
    requires Filter(s => InWindow(m.window, s), slots) != []
    ensures var kept := Filter(s => InWindow(m.window, s), slots);
      && Monitor(m, [Slots(slots)] + rest) ==
         Run([Search(QueryOf(m))] + (if m.notifier then [Send(Header + JoinedBlocks(kept))] else []), Notified(kept))
  {
  }
}

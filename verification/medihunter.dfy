/** The legacy command-line hunter (medihunter.py): the duplicate checker,
    reporting new appointments, the notifier dispatch, the option checks,
    and the day-cursor search loops of `find_appointment`.

    Dates are day numbers. The Medicover session is an oracle: the reply
    of the k-th search of pass p is `server(p)(k)`. */
module Hunter {
  import opened Wrappers
  import opened Seqs

  /** An appointment as the session returns it. `day` is the date part of
      `appointment_datetime`. Equality is field by field. */
  datatype Appointment = Appointment(
    datetime: string, day: int, doctorName: string, clinicName: string,
    specializationName: string, isPhoneConsultation: bool)

  // ---------------------------------------------------------------------
  // The duplicate checker
  // ---------------------------------------------------------------------

  /** The closure of `make_duplicate_checker` with its captured list. */
  class DuplicateChecker {
    var found: seq<Appointment>

    predicate Valid()
      reads this
    {
      NoDuplicates(found)
    }

    constructor()
      ensures found == [] && Valid()
    {
      found := [];
    }

    /** `duplicate_checker(appointment)`: true the first time an equal
        appointment is seen, and then it is remembered. */
    method Check(a: Appointment) returns (isNew: bool)
      requires Valid()
      modifies this
      ensures Valid()
      ensures isNew <==> a !in old(found)
      ensures found == if isNew then old(found) + [a] else old(found)
    {
      if a in found {
        return false;
      }
      found := found + [a];
      return true;
    }
  }

  /** A new checker says yes once and no on every later call with an
      equal appointment. */
  method CheckTwice(a: Appointment, b: Appointment) returns (first: bool, second: bool)
    ensures first
    ensures second <==> b != a
  {
    var checker := new DuplicateChecker();
    first := checker.Check(a);
    second := checker.Check(b);
  }

  /** The appointments a checker that has seen `seen` reports as new, in
      input order. */
  function Dedup(seen: seq<Appointment>, apps: seq<Appointment>): seq<Appointment>
    decreases |apps|
  {
    if apps == [] then []
    else
      var init := Dedup(seen, apps[..|apps| - 1]);
      var a := apps[|apps| - 1];
      if a in seen + init then init else init + [a]
  }

  /** Reported are exactly the appointments of the input not seen before. */
  lemma {:induction false} DedupMembers(seen: seq<Appointment>, apps: seq<Appointment>)
    ensures forall x :: x in Dedup(seen, apps) <==> x in apps && x !in seen
    decreases |apps|
  {
    if apps != [] {
      var init := apps[..|apps| - 1];
      DedupMembers(seen, init);
      assert apps == init + [apps[|apps| - 1]];
    }
  }

  /** Nothing is reported twice: what has been seen stays free of
      repetitions. */
  lemma {:induction false} DedupNoDuplicates(seen: seq<Appointment>, apps: seq<Appointment>)
    requires NoDuplicates(seen)
    ensures NoDuplicates(seen + Dedup(seen, apps))
    decreases |apps|
  {
    if apps != [] {
      var init := Dedup(seen, apps[..|apps| - 1]);
      DedupNoDuplicates(seen, apps[..|apps| - 1]);
      var a := apps[|apps| - 1];
      if a !in seen + init {
        assert seen + (init + [a]) == (seen + init) + [a];
      }
    }
  }

  /** Processing in two parts reports the same as processing at once: the
      second part is checked against everything reported by the first. */
  lemma {:induction false} DedupAppend(seen: seq<Appointment>, a: seq<Appointment>, b: seq<Appointment>)
    ensures Dedup(seen, a + b) == Dedup(seen, a) + Dedup(seen + Dedup(seen, a), b)
    decreases |b|
  {
    if b == [] {
      assert a + b == a;
    } else {
      var b' := b[..|b| - 1];
      DedupAppend(seen, a, b');
      assert (a + b)[..|a + b| - 1] == a + b';
      assert (seen + Dedup(seen, a)) + Dedup(seen + Dedup(seen, a), b')
          == seen + (Dedup(seen, a) + Dedup(seen + Dedup(seen, a), b'));
    }
  }

  /** Once everything of an input has been reported, processing it again
      reports nothing. */
  lemma RepeatReportsNothing(seen: seq<Appointment>, apps: seq<Appointment>)
    ensures Dedup(seen + Dedup(seen, apps), apps) == []
  {
    DedupMembers(seen, apps);
    AllSeenReportsNothing(seen + Dedup(seen, apps), apps);
  }

  /** An input whose every appointment has been seen reports nothing. */
  lemma {:induction false} AllSeenReportsNothing(seen: seq<Appointment>, apps: seq<Appointment>)
    requires forall i :: 0 <= i < |apps| ==> apps[i] in seen
    ensures Dedup(seen, apps) == []
    decreases |apps|
  {
    if apps != [] {
      AllSeenReportsNothing(seen, apps[..|apps| - 1]);
    }
  }

  // ---------------------------------------------------------------------
  // Notifier dispatch
  // ---------------------------------------------------------------------

  /** A call into one of the external notification channels. */
  datatype ChannelCall =
    | Pushbullet(message: string, title: Option<string>)
    | Pushover(message: string, title: Option<string>)
    | Telegram(message: string, title: Option<string>)
    | Xmpp(message: string)
    | Gotify(message: string, title: Option<string>)

  /** The channel name a call belongs to. */
  function ChannelName(c: ChannelCall): string {
    match c
    case Pushbullet(_, _) => "pushbullet"
    case Pushover(_, _) => "pushover"
    case Telegram(_, _) => "telegram"
    case Xmpp(_) => "xmpp"
    case Gotify(_, _) => "gotify"
  }

  const Channels: set<string> := {"pushbullet", "pushover", "telegram", "xmpp", "gotify"}

  /** `notify_external_device`: a separate `if` for pushbullet, then an
      `if`/`elif` chain for the others. */
  function NotifyExternalDevice(message: string, notifier: Option<string>, title: Option<string>): (calls: seq<ChannelCall>)
    ensures |calls| <= 1
    ensures calls != [] <==> notifier.Some? && notifier.value in Channels
    ensures calls != [] ==> ChannelName(calls[0]) == notifier.value && calls[0].message == message
    ensures calls != [] && !calls[0].Xmpp? ==> calls[0].title == title
  {
    var first := if notifier == Some("pushbullet") then [Pushbullet(message, title)] else [];
    var second :=
      if notifier == Some("pushover") then [Pushover(message, title)]
      else if notifier == Some("telegram") then [Telegram(message, title)]
      else if notifier == Some("xmpp") then [Xmpp(message)]
      else if notifier == Some("gotify") then [Gotify(message, title)]
      else [];
    first + second
  }

  // ---------------------------------------------------------------------
  // process_appointments
  // ---------------------------------------------------------------------

  /** The notification line of one appointment. */
  function Line(a: Appointment): string {
    a.datetime + " " + a.doctorName + " " + a.clinicName
    + (if a.isPhoneConsultation then " (Telefonicznie)\n" else " (Stacjonarnie)\n")
  }

  /** The lines of the given appointments, in order. */
  function Message(apps: seq<Appointment>): (m: string)
    ensures m == [] <==> apps == []
    ensures apps != [] ==> m[|m| - 1] == '\n'
  {
    if apps == [] then [] else Message(apps[..|apps| - 1]) + Line(apps[|apps| - 1])
  }

  /** Each line names its appointment and says whether it is by phone. */
  lemma LineShape(a: Appointment)
    ensures Line(a)[..|a.datetime|] == a.datetime
    ensures a.isPhoneConsultation ==> Line(a)[|Line(a)| - 17..] == " (Telefonicznie)\n"
    ensures !a.isPhoneConsultation ==> Line(a)[|Line(a)| - 16..] == " (Stacjonarnie)\n"
  {
  }

  /** The message of two runs of appointments is the two messages in a
      row. */
  lemma {:induction false} MessageAppend(a: seq<Appointment>, b: seq<Appointment>)
    ensures Message(a + b) == Message(a) + Message(b)
    decreases |b|
  {
    if b == [] {
      assert a + b == a;
    } else {
      var b' := b[..|b| - 1];
      var last := b[|b| - 1];
      MessageAppend(a, b');
      AppendLast(a, b);
      MessageSnoc(a + b', last);
      MessageSnoc(b', last);
      AppendAssoc(Message(a), Message(b'), Line(last));
    }
  }

  /** One more appointment adds its line at the end. */
  lemma MessageSnoc(apps: seq<Appointment>, a: Appointment)
    ensures Message(apps + [a]) == Message(apps) + Line(a)
  {
    assert (apps + [a])[..|apps|] == apps;
  }

  /** What `process_appointments` reports and sends. */
  function Notifications(reported: seq<Appointment>, notifier: Option<string>, title: Option<string>): seq<ChannelCall> {
    if reported == [] then [] else NotifyExternalDevice(Message(reported), notifier, title)
  }

  /** At most one channel is called, never when nothing is new, and the
      message lists exactly the new appointments. */
  lemma NotificationsAtMostOnce(reported: seq<Appointment>, notifier: Option<string>, title: Option<string>)
    ensures |Notifications(reported, notifier, title)| <= 1
    ensures reported == [] ==> Notifications(reported, notifier, title) == []
    ensures Notifications(reported, notifier, title) != [] ==> Notifications(reported, notifier, title)[0].message == Message(reported)
  {
  }

  /** One more appointment is reported exactly when it is new. */
  lemma DedupStep(seen: seq<Appointment>, apps: seq<Appointment>, i: nat)
    requires i < |apps|
    ensures var init := Dedup(seen, apps[..i]);
      Dedup(seen, apps[..i + 1]) == if apps[i] in seen + init then init else init + [apps[i]]
  {
    assert apps[..i + 1][..i] == apps[..i];
  }

  /** The body of the `process_appointments` loop: one call of the
      checker, and the line of the appointment when it is new. */
  method CheckAndRecord(a: Appointment, checker: DuplicateChecker, reported: seq<Appointment>, message: string,
                        ghost seen: seq<Appointment>)
    returns (reported': seq<Appointment>, message': string)
    requires checker.Valid() && checker.found == seen + reported && message == Message(reported)
    modifies checker
    ensures checker.Valid() && checker.found == seen + reported' && message' == Message(reported')
    ensures reported' == if a in seen + reported then reported else reported + [a]
  {
    var isNew := checker.Check(a);
    if isNew {
      assert seen + (reported + [a]) == (seen + reported) + [a];
      assert (reported + [a])[..|reported|] == reported;
      return reported + [a], message + Line(a);
    }
    return reported, message;
  }

  /** `process_appointments`: checks every appointment in order and sends
      one message with the lines of the new ones. */
  method ProcessAppointments(apps: seq<Appointment>, notifier: Option<string>, title: Option<string>, checker: DuplicateChecker)
    returns (reported: seq<Appointment>, calls: seq<ChannelCall>)
    requires checker.Valid()
    modifies checker
    ensures checker.Valid()
    ensures reported == Dedup(old(checker.found), apps)
    ensures checker.found == old(checker.found) + reported
    ensures calls == Notifications(reported, notifier, title)
  {
    var message := "";
    reported := [];
    ghost var seen := checker.found;
    for i := 0 to |apps|
      invariant checker.Valid() && checker.found == seen + reported && message == Message(reported)
      invariant reported == Dedup(seen, apps[..i])
    {
      DedupStep(seen, apps, i);
      reported, message := CheckAndRecord(apps[i], checker, reported, message, seen);
    }
    assert apps[..|apps|] == apps;
    calls := [];
    if message != "" {
      calls := NotifyExternalDevice(message, notifier, title);
    }
  }

  // ---------------------------------------------------------------------
  // Option checks
  // ---------------------------------------------------------------------

  datatype Validation = Accepted | Refused(reason: string)

  /** `validate_arguments`: a diagnostic procedure needs a service and a
      consultation needs a specialization (-1 stands for none). */
  function ValidateArguments(service: int, bookingtype: int, specialization: int): (v: Validation)
    ensures v.Refused? <==> (service == -1 && bookingtype == 1) || (specialization == -1 && bookingtype == 2)
    ensures service == -1 && bookingtype == 1 ==> v == Refused("Service is required when bookingtype=1 (Diagnostic procedure)")
    ensures bookingtype == 2 && specialization == -1 ==> v == Refused("Specialization is required when bookingtype=2 (Consulting)")
  {
    if service == -1 && bookingtype == 1 then Refused("Service is required when bookingtype=1 (Diagnostic procedure)")
    else if specialization == -1 && bookingtype == 2 then Refused("Specialization is required when bookingtype=2 (Consulting)")
    else Accepted
  }

  /** The values of `show_params --field-name`. */
  datatype Field = RegionField | SpecializationField | ClinicField | DoctorField

  function FieldName(f: Field): string {
    match f
    case RegionField => "region"
    case SpecializationField => "specialization"
    case ClinicField => "clinic"
    case DoctorField => "doctor"
  }

  /** The session call `show_params` will make. */
  datatype Loader =
    | LoadRegions
    | LoadSpecializations(region: int, bookingtype: int)
    | LoadClinics(region: int, bookingtype: int, specialization: int)
    | LoadDoctors(region: int, bookingtype: int, specialization: int, clinic: Option<int>)

  datatype ParamsCheck = Load(loader: Loader) | UsageError(message: string)

  /** An integer option's truth value: absent or zero is false. */
  predicate Given(o: Option<int>) {
    o.Some? && o.value != 0
  }

  /** The name of the option that selects the field. */
  const FieldOption: string := "--field-name"

  function Mandatory(option: string, flag: string, f: Field): string {
    "Option " + option + " is mandatory when " + flag + "=" + FieldName(f)
  }

  /** The checks of `show_params`, with the option name in the messages
      as the source spells it. */
  function ShowParamsAsWritten(f: Field, region: Option<int>, bookingtype: int, specialization: Option<int>, clinic: Option<int>): ParamsCheck {
    ShowParamsNaming("--fild-name", f, region, bookingtype, specialization, clinic)
  }

  /** The checks of `show_params`, naming the option `flag` in the usage
      errors. */
  function ShowParamsNaming(flag: string, f: Field, region: Option<int>, bookingtype: int, specialization: Option<int>, clinic: Option<int>): ParamsCheck {
    match f
    case RegionField => Load(LoadRegions)
    case SpecializationField =>
      if !Given(region) then UsageError(Mandatory("--region", flag, f))
      else Load(LoadSpecializations(region.value, bookingtype))
    case ClinicField =>
      if !Given(region) then UsageError(Mandatory("--region", flag, f))
      else if !Given(specialization) then UsageError(Mandatory("--specialization", flag, f))
      else Load(LoadClinics(region.value, bookingtype, specialization.value))
    case DoctorField =>
      if !Given(region) then UsageError(Mandatory("--region", flag, f))
      else if !Given(specialization) then UsageError(Mandatory("--specialization", flag, f))
      else Load(LoadDoctors(region.value, bookingtype, specialization.value, clinic))
  }

  /** The source's checks refuse exactly the inputs the corrected ones
      refuse and load the same thing otherwise, but every usage error it
      raises names `--fild-name`, an option the command does not have. */
  lemma ShowParamsNamesMissingOption(f: Field, region: Option<int>, bookingtype: int, specialization: Option<int>, clinic: Option<int>)
    ensures ShowParamsAsWritten(f, region, bookingtype, specialization, clinic).UsageError?
        <==> ShowParams(f, region, bookingtype, specialization, clinic).UsageError?
    ensures ShowParams(f, region, bookingtype, specialization, clinic).Load? ==>
      ShowParamsAsWritten(f, region, bookingtype, specialization, clinic) == ShowParams(f, region, bookingtype, specialization, clinic)
    ensures ShowParams(f, region, bookingtype, specialization, clinic).UsageError? ==>
      ShowParamsAsWritten(f, region, bookingtype, specialization, clinic).message
        != ShowParams(f, region, bookingtype, specialization, clinic).message
    ensures ShowParamsAsWritten(SpecializationField, None, 2, None, None)
         == UsageError(Mandatory("--region", "--fild-name", SpecializationField))
  {
    assert |"--fild-name"| == 11 && |FieldOption| == 12;
  }

  /** The checks of `show_params` with the usage errors naming
      `--field-name`. */
  function ShowParams(f: Field, region: Option<int>, bookingtype: int, specialization: Option<int>, clinic: Option<int>): (r: ParamsCheck)
    ensures r.UsageError? <==>
      (f != RegionField && !Given(region)) || ((f == ClinicField || f == DoctorField) && !Given(specialization))
    ensures r.UsageError? && !Given(region) ==> r.message == Mandatory("--region", FieldOption, f)
    ensures r.UsageError? && Given(region) ==> r.message == Mandatory("--specialization", FieldOption, f)
    ensures r.Load? ==> LoaderField(r.loader) == f
    ensures r.Load? && f != RegionField ==> LoaderRegion(r.loader) == region.value
    ensures r.Load? && (f == ClinicField || f == DoctorField) ==> r.loader.specialization == specialization.value
    ensures r.Load? && f == DoctorField ==> r.loader.clinic == clinic
  {
    ShowParamsNaming(FieldOption, f, region, bookingtype, specialization, clinic)
  }

  function LoaderField(l: Loader): Field {
    match l
    case LoadRegions => RegionField
    case LoadSpecializations(_, _) => SpecializationField
    case LoadClinics(_, _, _) => ClinicField
    case LoadDoctors(_, _, _, _) => DoctorField
  }

  function LoaderRegion(l: Loader): int
    requires !l.LoadRegions?
  {
    l.region
  }

  // ---------------------------------------------------------------------
  // find_appointment: the day-cursor sweep
  // ---------------------------------------------------------------------

  /** `days_ahead`: with an end date, the whole-day difference end − start. */
  function DaysAhead(startDay: int, endDay: Option<int>, daysAheadOption: int): (days: int)
    ensures endDay.Some? ==> startDay + days == endDay.value
    ensures endDay.None? ==> days == daysAheadOption
  {
    if endDay.Some? then endDay.value - startDay else daysAheadOption
  }

  datatype SweepResult = SweepResult(found: seq<Appointment>, starts: seq<int>)

  /** The sweep from search `k` on, with `cursor` as the next start date. */
  function SweepFrom(k: nat, days: int, cursor: int, search: nat -> seq<Appointment>): SweepResult
    decreases days - k
  {
    if k >= days then SweepResult([], [])
    else
      var reply := search(k);
      if reply == [] then SweepResult([], [cursor])
      else
        var rest := SweepFrom(k + 1, days, reply[|reply| - 1].day + 1, search);
        SweepResult(reply + rest.found, [cursor] + rest.starts)
  }

  /** One pass of the inner loop: the appointments collected and the
      start dates of the searches made. */
  function Sweep(start: int, days: int, search: nat -> seq<Appointment>): SweepResult {
    SweepFrom(0, days, start, search)
  }

  /** The replies of searches `from` to `to`, in order. */
  function Replies(search: nat -> seq<Appointment>, from: nat, to: nat): seq<Appointment>
    decreases to - from
  {
    if to <= from then [] else search(from) + Replies(search, from + 1, to)
  }

  /** Unfolding `SweepFrom` once. */
  lemma SweepStep(k: nat, days: int, cursor: int, search: nat -> seq<Appointment>)
    requires k < days
    ensures search(k) == [] ==> SweepFrom(k, days, cursor, search) == SweepResult([], [cursor])
    ensures search(k) != [] ==>
      var rest := SweepFrom(k + 1, days, search(k)[|search(k)| - 1].day + 1, search);
      SweepFrom(k, days, cursor, search) == SweepResult(search(k) + rest.found, [cursor] + rest.starts)
  {
  }

  /** At most `days - k` searches, every one but the last answered with
      appointments, the last empty unless the budget ran out, and the
      collected appointments the replies in search order. */
  lemma {:induction false} SweepFromShape(k: nat, days: int, cursor: int, search: nat -> seq<Appointment>)
    ensures var r := SweepFrom(k, days, cursor, search);
      && |r.starts| <= (if days > k then days - k else 0)
      && (days > k ==> r.starts != [] && r.starts[0] == cursor)
      && (forall i: nat :: k <= i < k + |r.starts| - 1 ==> search(i) != [])
      && (r.starts != [] && |r.starts| < days - k ==> search(k + |r.starts| - 1) == [])
      && r.found == Replies(search, k, k + |r.starts|)
    decreases days - k
  {
    if k < days {
      var reply := search(k);
      if reply != [] {
        var cursor' := reply[|reply| - 1].day + 1;
        SweepFromShape(k + 1, days, cursor', search);
        var rest := SweepFrom(k + 1, days, cursor', search);
        if rest.starts == [] {
          assert Replies(search, k + 1, k + 1) == [];
        }
      } else {
        assert Replies(search, k + 1, k + 1) == [];
      }
    }
  }

  /** Each search after the first starts the day after the date of the
      last appointment the previous search returned. */
  lemma {:induction false} SweepFromCursor(k: nat, days: int, cursor: int, search: nat -> seq<Appointment>)
    ensures var r := SweepFrom(k, days, cursor, search);
      forall i: nat :: k <= i < k + |r.starts| - 1 ==>
        search(i) != [] && r.starts[i - k + 1] == search(i)[|search(i)| - 1].day + 1
    decreases days - k
  {
    if k < days {
      var reply := search(k);
      if reply != [] {
        var cursor' := reply[|reply| - 1].day + 1;
        SweepFromCursor(k + 1, days, cursor', search);
        SweepFromShape(k + 1, days, cursor', search);
      }
    }
  }

  /** What the loop has collected plus the rest of the sweep. */
  function Collected(found: seq<Appointment>, starts: seq<int>, k: nat, days: int, cursor: int,
                     search: nat -> seq<Appointment>): SweepResult
  {
    var rest := SweepFrom(k, days, cursor, search);
    SweepResult(found + rest.found, starts + rest.starts)
  }

  /** A non-empty reply moves the collected part forward by one search. */
  lemma CollectedAdvance(found: seq<Appointment>, starts: seq<int>, k: nat, days: int, cursor: int,
                         search: nat -> seq<Appointment>)
    requires k < days && search(k) != []
    ensures Collected(found, starts, k, days, cursor, search)
         == Collected(found + search(k), starts + [cursor], k + 1, days, search(k)[|search(k)| - 1].day + 1, search)
  {
    SweepStep(k, days, cursor, search);
    var rest := SweepFrom(k + 1, days, search(k)[|search(k)| - 1].day + 1, search);
    assert found + (search(k) + rest.found) == (found + search(k)) + rest.found;
    assert starts + ([cursor] + rest.starts) == (starts + [cursor]) + rest.starts;
  }

  /** An empty reply ends the sweep after recording its start date. */
  lemma CollectedStops(found: seq<Appointment>, starts: seq<int>, k: nat, days: int, cursor: int,
                       search: nat -> seq<Appointment>)
    requires k < days && search(k) == []
    ensures Collected(found, starts, k, days, cursor, search) == SweepResult(found, starts + [cursor])
  {
    SweepStep(k, days, cursor, search);
    assert found + [] == found;
  }

  /** Once the budget of searches is spent nothing more is collected. */
  lemma CollectedDone(found: seq<Appointment>, starts: seq<int>, k: nat, days: int, cursor: int,
                      search: nat -> seq<Appointment>)
    requires days <= k
    ensures Collected(found, starts, k, days, cursor, search) == SweepResult(found, starts)
  {
    assert found + [] == found && starts + [] == starts;
  }

  /** Before the first search nothing is collected yet. */
  lemma CollectedFromStart(start: int, days: int, search: nat -> seq<Appointment>)
    ensures Collected([], [], 0, days, start, search) == Sweep(start, days, search)
  {
    var r := Sweep(start, days, search);
    assert [] + r.found == r.found && [] + r.starts == r.starts;
  }

  /** The inner `for _ in range(days_ahead)` loop. */
  method SearchDays(start: int, days: int, search: nat -> seq<Appointment>) returns (appointments: seq<Appointment>, starts: seq<int>)
    ensures SweepResult(appointments, starts) == Sweep(start, days, search)
  {
    appointments, starts := [], [];
    var cursor := start;
    var k: nat := 0;
    ghost var target := Sweep(start, days, search);
    CollectedFromStart(start, days, search);
    while k < days
      invariant Collected(appointments, starts, k, days, cursor, search) == target
      decreases days - k
    {
      var reply := search(k);
      if reply == [] {
        CollectedStops(appointments, starts, k, days, cursor, search);
        starts := starts + [cursor];
        return;
      }
      CollectedAdvance(appointments, starts, k, days, cursor, search);
      starts := starts + [cursor];
      cursor := reply[|reply| - 1].day + 1;
      appointments := appointments + reply;
      k := k + 1;
    }
    CollectedDone(appointments, starts, k, days, cursor, search);
  }

  // ---------------------------------------------------------------------
  // find_appointment: the passes
  // ---------------------------------------------------------------------

  /** The options of `find_appointment` that steer the loops. */
  datatype HuntConfig = HuntConfig(
    startDay: int, endDay: Option<int>, daysAhead: int, interval: int,
    bookingtype: int, specialization: int, service: int,
    notifier: Option<string>, title: Option<string>)

  /** What one pass of the outer loop did. */
  datatype PassReport = PassReport(
    iteration: int, found: seq<Appointment>, starts: seq<int>,
    reported: seq<Appointment>, calls: seq<ChannelCall>, sleepSeconds: int)

  /** How the observed part of the run ends: rejected options, a failed
      login, the loop's own end, the `ValueError` that `time.sleep` raises
      for a negative delay, or still running when the observation stops. */
  datatype HuntEnding = Rejected(reason: string) | LoginFailed | Finished | SleepRaised | StillHunting

  /** All lists of a sequence of lists, in order. */
  function Flatten(ss: seq<seq<Appointment>>): seq<Appointment> {
    if ss == [] then [] else Flatten(ss[..|ss| - 1]) + ss[|ss| - 1]
  }

  /** The appointments each pass reports as new, for the found lists of
      the passes, with a checker that has seen `seen` at the start. */
  function FreshPerPass(seen: seq<Appointment>, batches: seq<seq<Appointment>>): (r: seq<seq<Appointment>>)
    ensures |r| == |batches|
  {
    if batches == [] then []
    else
      var prev := FreshPerPass(seen, batches[..|batches| - 1]);
      prev + [Dedup(seen + Flatten(prev), batches[|batches| - 1])]
  }

  /** Across passes, reported are exactly the appointments found in some
      pass and not seen before. */
  lemma {:induction false} ReportedAcrossPasses(seen: seq<Appointment>, batches: seq<seq<Appointment>>)
    ensures forall x :: x in Flatten(FreshPerPass(seen, batches)) <==> x in Flatten(batches) && x !in seen
    decreases |batches|
  {
    if batches != [] {
      var init := batches[..|batches| - 1];
      ReportedAcrossPasses(seen, init);
      var prev := FreshPerPass(seen, init);
      DedupMembers(seen + Flatten(prev), batches[|batches| - 1]);
      assert FreshPerPass(seen, batches)[..|batches| - 1] == prev;
    }
  }

  /** Across passes, no appointment is reported twice. */
  lemma {:induction false} ReportedOnce(seen: seq<Appointment>, batches: seq<seq<Appointment>>)
    requires NoDuplicates(seen)
    ensures NoDuplicates(seen + Flatten(FreshPerPass(seen, batches)))
    decreases |batches|
  {
    if batches != [] {
      var init := batches[..|batches| - 1];
      ReportedOnce(seen, init);
      var prev := FreshPerPass(seen, init);
      DedupNoDuplicates(seen + Flatten(prev), batches[|batches| - 1]);
      assert FreshPerPass(seen, batches)[..|batches| - 1] == prev;
      assert seen + Flatten(FreshPerPass(seen, batches))
          == (seen + Flatten(prev)) + Dedup(seen + Flatten(prev), batches[|batches| - 1]);
    }
  }

  function FoundLists(reports: seq<PassReport>): (r: seq<seq<Appointment>>)
    ensures |r| == |reports| && forall i :: 0 <= i < |reports| ==> r[i] == reports[i].found
  {
    if reports == [] then [] else FoundLists(reports[..|reports| - 1]) + [reports[|reports| - 1].found]
  }

  function FreshLists(reports: seq<PassReport>): (r: seq<seq<Appointment>>)
    ensures |r| == |reports| && forall i :: 0 <= i < |reports| ==> r[i] == reports[i].reported
  {
    if reports == [] then [] else FreshLists(reports[..|reports| - 1]) + [reports[|reports| - 1].reported]
  }

  /** How many passes the outer loop makes within `horizon` observed
      passes: one when `interval <= 0`, all of them otherwise. */
  function Passes(interval: int, horizon: nat): nat {
    if interval > 0 then horizon else if horizon == 0 then 0 else 1
  }

  /** Appending a pass keeps the reported lists those of the found lists. */
  lemma PassStep(seen: seq<Appointment>, reports: seq<PassReport>, report: PassReport)
    requires FreshLists(reports) == FreshPerPass(seen, FoundLists(reports))
    requires report.reported == Dedup(seen + Flatten(FreshLists(reports)), report.found)
    ensures FreshLists(reports + [report]) == FreshPerPass(seen, FoundLists(reports + [report]))
    ensures Flatten(FreshLists(reports + [report])) == Flatten(FreshLists(reports)) + report.reported
  {
    assert FoundLists(reports + [report])[..|reports|] == FoundLists(reports);
    assert FreshLists(reports + [report])[..|reports|] == FreshLists(reports);
  }

  /** The checker's list stays what was seen plus everything reported. */
  lemma FoundStep(seen: seq<Appointment>, earlier: seq<Appointment>, reported: seq<Appointment>, found: seq<Appointment>)
    requires found == seen + earlier
    ensures found + reported == seen + (earlier + reported)
  {
  }

  /** One pass of the outer loop: the sweep, then `process_appointments`
      when it found anything. */
  method HuntPass(cfg: HuntConfig, server: nat -> nat -> seq<Appointment>, index: nat, checker: DuplicateChecker)
    returns (report: PassReport)
    requires checker.Valid()
    modifies checker
    ensures checker.Valid()
    ensures PassAsSpecified(cfg, server, index, report)
    ensures report.reported == Dedup(old(checker.found), report.found)
    ensures checker.found == old(checker.found) + report.reported
  {
    var days := DaysAhead(cfg.startDay, cfg.endDay, cfg.daysAhead);
    var appointments, starts := SearchDays(cfg.startDay, days, server(index));
    var reported: seq<Appointment> := [];
    var calls: seq<ChannelCall> := [];
    if appointments != [] {
      reported, calls := ProcessAppointments(appointments, cfg.notifier, cfg.title, checker);
    } else {
      assert checker.found + [] == checker.found;
    }
    report := PassReport(index + 1, appointments, starts, reported, calls, cfg.interval * 60);
  }

  /** A pass as `find_appointment` records it. */
  predicate PassAsSpecified(cfg: HuntConfig, server: nat -> nat -> seq<Appointment>, i: nat, r: PassReport) {
    && r.iteration == i + 1
    && SweepResult(r.found, r.starts) == Sweep(cfg.startDay, DaysAhead(cfg.startDay, cfg.endDay, cfg.daysAhead), server(i))
    && r.calls == Notifications(r.reported, cfg.notifier, cfg.title)
    && r.sleepSeconds == cfg.interval * 60
  }

  /** The passes so far, as `find_appointment` records them, with a
      checker that had seen `seen` before the first. */
  predicate PassesAsSpecified(cfg: HuntConfig, server: nat -> nat -> seq<Appointment>, seen: seq<Appointment>,
                              reports: seq<PassReport>, found: seq<Appointment>) {
    && (forall i :: 0 <= i < |reports| ==> PassAsSpecified(cfg, server, i, reports[i]))
    && FreshLists(reports) == FreshPerPass(seen, FoundLists(reports))
    && found == seen + Flatten(FreshLists(reports))
  }

  /** Appending a pass recorded as specified keeps every pass as
      specified. */
  lemma RecordedStep(cfg: HuntConfig, server: nat -> nat -> seq<Appointment>, reports: seq<PassReport>, report: PassReport)
    requires forall i :: 0 <= i < |reports| ==> PassAsSpecified(cfg, server, i, reports[i])
    requires PassAsSpecified(cfg, server, |reports|, report)
    ensures forall i :: 0 <= i < |reports| + 1 ==> PassAsSpecified(cfg, server, i, (reports + [report])[i])
  {
    forall i | 0 <= i < |reports| + 1
      ensures PassAsSpecified(cfg, server, i, (reports + [report])[i])
    {
      if i < |reports| {
        assert (reports + [report])[i] == reports[i];
      }
    }
  }

  /** The body of the outer loop: one more pass. */
  method NextPass(cfg: HuntConfig, server: nat -> nat -> seq<Appointment>, reports: seq<PassReport>,
                  checker: DuplicateChecker, ghost seen: seq<Appointment>)
    returns (reports': seq<PassReport>)
    requires checker.Valid()
    requires forall i :: 0 <= i < |reports| ==> PassAsSpecified(cfg, server, i, reports[i])
    requires FreshLists(reports) == FreshPerPass(seen, FoundLists(reports))
    requires checker.found == seen + Flatten(FreshLists(reports))
    modifies checker
    ensures checker.Valid()
    ensures |reports'| == |reports| + 1
    ensures forall i :: 0 <= i < |reports'| ==> PassAsSpecified(cfg, server, i, reports'[i])
    ensures FreshLists(reports') == FreshPerPass(seen, FoundLists(reports'))
    ensures checker.found == seen + Flatten(FreshLists(reports'))
  {
    ghost var found := checker.found;
    var report := HuntPass(cfg, server, |reports|, checker);
    RecordedStep(cfg, server, reports, report);
    PassStep(seen, reports, report);
    FoundStep(seen, Flatten(FreshLists(reports)), report.reported, found);
    reports' := reports + [report];
  }

  /** `find_appointment` after the session is made: validation, login,
      then the `while interval > 0 or iteration_counter < 2` loop, with
      the duplicate checker shared by every pass. */
  method FindAppointment(cfg: HuntConfig, loggedIn: bool, server: nat -> nat -> seq<Appointment>, horizon: nat, checker: DuplicateChecker)
    returns (reports: seq<PassReport>, ending: HuntEnding)
    requires checker.Valid()
    modifies checker
    ensures checker.Valid()
    ensures ValidateArguments(cfg.service, cfg.bookingtype, cfg.specialization).Refused? ==>
      reports == [] && ending == Rejected(ValidateArguments(cfg.service, cfg.bookingtype, cfg.specialization).reason)
    ensures ValidateArguments(cfg.service, cfg.bookingtype, cfg.specialization).Accepted? && !loggedIn ==>
      reports == [] && ending == LoginFailed
    ensures ValidateArguments(cfg.service, cfg.bookingtype, cfg.specialization).Accepted? && loggedIn ==>
      && |reports| == Passes(cfg.interval, horizon)
      && ending == (if horizon == 0 || cfg.interval > 0 then StillHunting
                    else if cfg.interval == 0 then Finished
                    else SleepRaised)
    ensures PassesAsSpecified(cfg, server, old(checker.found), reports, checker.found)
  {
    var validation := ValidateArguments(cfg.service, cfg.bookingtype, cfg.specialization);
    reports := [];
    NoPasses(cfg, server, checker.found);
    if validation.Refused? {
      return reports, Rejected(validation.reason);
    }
    if !loggedIn {
      return reports, LoginFailed;
    }
    reports, ending := HuntLoop(cfg, server, horizon, checker);
  }

  /** Before any pass the checker holds just what it had seen. */
  lemma NoPasses(cfg: HuntConfig, server: nat -> nat -> seq<Appointment>, found: seq<Appointment>)
    ensures PassesAsSpecified(cfg, server, found, [], found)
  {
    AppendEmpty(found);
  }

  /** The `while interval > 0 or iteration_counter < 2` loop of
      `find_appointment`, once validation and login have passed. */
  method HuntLoop(cfg: HuntConfig, server: nat -> nat -> seq<Appointment>, horizon: nat, checker: DuplicateChecker)
    returns (reports: seq<PassReport>, ending: HuntEnding)
    requires checker.Valid()
    modifies checker
    ensures checker.Valid()
    ensures |reports| == Passes(cfg.interval, horizon)
    ensures ending == (if horizon == 0 || cfg.interval > 0 then StillHunting
                       else if cfg.interval == 0 then Finished
                       else SleepRaised)
    ensures PassesAsSpecified(cfg, server, old(checker.found), reports, checker.found)
  {
    reports := [];
    ghost var seen := checker.found;
    NoPasses(cfg, server, seen);
    var iterationCounter := 1;
    while (cfg.interval > 0 || iterationCounter < 2) && |reports| < horizon
      invariant checker.Valid()
      invariant iterationCounter == |reports| + 1
      invariant |reports| <= Passes(cfg.interval, horizon)
      invariant cfg.interval < 0 ==> reports == []
      invariant PassesAsSpecified(cfg, server, seen, reports, checker.found)
      decreases horizon - |reports|
    {
      reports := NextPass(cfg, server, reports, checker, seen);
      iterationCounter := iterationCounter + 1;
      if cfg.interval < 0 {
        return reports, SleepRaised;
      }
    }
    if cfg.interval > 0 || iterationCounter < 2 {
      ending := StillHunting;
    } else {
      ending := Finished;
    }
  }
}

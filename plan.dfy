/** internal/plan: which of the next three days each sport may be planned on,
    the prompts and template arguments built from that, and how `MultiStep`
    dispatches on the number of sports that can be planned. The model calls
    themselves are not part of this module; `MultiStep` returns which of its
    three strategies it runs and with what. */
module Plan {
  import opened Wrappers
  import opened Time
  import opened Seqs
  import Db
  import Profile
  import Util
  import Fitness
  import Strings

  /** `allowedDisallowedDays`. */
  datatype AllowedDisallowedDays = AllowedDisallowedDays(allowed: seq<Date>, disallowed: seq<Date>)

  /** `allowedDisallowedDayStrings`. */
  datatype AllowedDisallowedDayStrings = AllowedDisallowedDayStrings(allowed: seq<string>, disallowed: seq<string>)

  /** The number of days `nextThreeDays` looks at. */
  const Horizon: nat := 3

  /** Some activity falls on calendar date `d`, whatever its sport. */
  predicate HasActivityOn(activities: seq<Db.ActivityUnsafe>, d: Date)
  {
    exists i :: 0 <= i < |activities| && DateOf(activities[i].time) == d
  }

  /** The first date planned: tomorrow if anything is already logged today. */
  function StartDate(today: Instant, activitiesThisWeek: seq<Db.ActivityUnsafe>): Date
  {
    if HasActivityOn(activitiesThisWeek, DateOf(today)) then DateOf(today) + 1 else DateOf(today)
  }

  /** The dates `start` .. `start + n - 1`, each appended to the allowed or the
      disallowed list according to its weekday. */
  function Classify(start: Date, n: nat, allowedDays: set<Weekday>): AllowedDisallowedDays
  {
    if n == 0 then AllowedDisallowedDays([], [])
    else
      var prev := Classify(start, n - 1, allowedDays);
      var date := start + n - 1;
      if WeekdayOf(date) in allowedDays then prev.(allowed := prev.allowed + [date])
      else prev.(disallowed := prev.disallowed + [date])
  }

  /** What `nextThreeDays` computes. */
  function Availability(today: Instant, activitiesThisWeek: seq<Db.ActivityUnsafe>, allowedDays: set<Weekday>): AllowedDisallowedDays
  {
    Classify(StartDate(today, activitiesThisWeek), Horizon, allowedDays)
  }

  predicate Increasing(s: seq<Date>)
  {
    forall i, j :: 0 <= i < j < |s| ==> s[i] < s[j]
  }

  /** The two lists split the `n` dates from `start` exactly, by weekday, and
      each is in ascending order. */
  lemma {:induction false} ClassifyPartitions(start: Date, n: nat, allowedDays: set<Weekday>)
    ensures |Classify(start, n, allowedDays).allowed| + |Classify(start, n, allowedDays).disallowed| == n
    ensures forall d :: d in Classify(start, n, allowedDays).allowed <==>
              start <= d < start + n && WeekdayOf(d) in allowedDays
    ensures forall d :: d in Classify(start, n, allowedDays).disallowed <==>
              start <= d < start + n && WeekdayOf(d) !in allowedDays
    ensures Increasing(Classify(start, n, allowedDays).allowed)
    ensures Increasing(Classify(start, n, allowedDays).disallowed)
  {
    if n > 0 {
      ClassifyPartitions(start, n - 1, allowedDays);
      var prev := Classify(start, n - 1, allowedDays);
      IncreasingSnoc(prev.allowed, start + n - 1);
      IncreasingSnoc(prev.disallowed, start + n - 1);
    }
  }

  lemma IncreasingSnoc(s: seq<Date>, x: Date)
    requires Increasing(s) && forall d :: d in s ==> d < x
    ensures Increasing(s + [x])
  {
    forall i, j | 0 <= i < j < |s| + 1
      ensures (s + [x])[i] < (s + [x])[j]
    {
      assert s[i] in s;
    }
  }

  /** The properties of `nextThreeDays`: three dates, each in exactly one
      list, allowed exactly when its weekday is, both lists ascending; the
      dates begin today unless an activity is already logged today, and then
      tomorrow. */
  lemma AvailabilityProperties(today: Instant, activitiesThisWeek: seq<Db.ActivityUnsafe>, allowedDays: set<Weekday>)
    ensures var r := Availability(today, activitiesThisWeek, allowedDays);
            var start := StartDate(today, activitiesThisWeek);
            && |r.allowed| + |r.disallowed| == 3
            && (forall d :: !(d in r.allowed && d in r.disallowed))
            && (forall d :: d in r.allowed <==> start <= d < start + 3 && WeekdayOf(d) in allowedDays)
            && (forall d :: d in r.disallowed <==> start <= d < start + 3 && WeekdayOf(d) !in allowedDays)
            && Increasing(r.allowed) && Increasing(r.disallowed)
            && ((DateOf(today) in r.allowed || DateOf(today) in r.disallowed)
                <==> !HasActivityOn(activitiesThisWeek, DateOf(today)))
            && ((DateOf(today) + 3 in r.allowed || DateOf(today) + 3 in r.disallowed)
                <==> HasActivityOn(activitiesThisWeek, DateOf(today)))
  {
    ClassifyPartitions(StartDate(today, activitiesThisWeek), Horizon, allowedDays);
  }

  /** Running allowed on Monday, Wednesday and Friday, planning on Thursday
      1970-01-01 at noon with nothing logged: Friday is allowed, Thursday and
      Saturday are not. With a run logged that morning the window moves to
      Friday .. Sunday. */
  lemma ThursdayExample(run: Db.ActivityUnsafe)
    requires run.time == 3600
    ensures Availability(43200, [], {Monday, Wednesday, Friday}) == AllowedDisallowedDays([1], [0, 2])
    ensures Availability(43200, [run], {Monday, Wednesday, Friday}) == AllowedDisallowedDays([1], [2, 3])
  {
    assert DateOf(43200) == 0 && DateOf(run.time) == 0;
    assert WeekdayOf(0) == Thursday && WeekdayOf(1) == Friday;
    assert WeekdayOf(2) == Saturday && WeekdayOf(3) == Sunday;
    assert !HasActivityOn([], 0);
    assert [run][0] == run;
    assert HasActivityOn([run], 0);
    assert Classify(0, 1, {Monday, Wednesday, Friday}) == AllowedDisallowedDays([], [0]);
    assert Classify(1, 1, {Monday, Wednesday, Friday}) == AllowedDisallowedDays([1], []);
    assert Classify(0, 2, {Monday, Wednesday, Friday}) == AllowedDisallowedDays([1], [0]);
    assert Classify(1, 2, {Monday, Wednesday, Friday}) == AllowedDisallowedDays([1], [2]);
  }

  /** `nextThreeDays`, with the clock reading `today` as a parameter. */
  method NextThreeDays(today: Instant, activitiesThisWeek: seq<Db.ActivityUnsafe>, allowedDays: set<Weekday>)
    returns (days: AllowedDisallowedDays)
    ensures days == Availability(today, activitiesThisWeek, allowedDays)
  {
    var startDate := DateOf(today);

    var i := 0;
    while i < |activitiesThisWeek|
      invariant 0 <= i <= |activitiesThisWeek|
      invariant startDate == DateOf(today)
      invariant forall j :: 0 <= j < i ==> DateOf(activitiesThisWeek[j].time) != DateOf(today)
    {
      if DateOf(activitiesThisWeek[i].time) == DateOf(today) {
        startDate := DateOf(today) + 1;
        break;
      }
      i := i + 1;
    }
    assert startDate == StartDate(today, activitiesThisWeek);

    days := AllowedDisallowedDays([], []);
    for k := 0 to 3
      invariant days == Classify(startDate, k, allowedDays)
    {
      var date := startDate + k;
      if WeekdayOf(date) in allowedDays {
        days := days.(allowed := days.allowed + [date]);
      } else {
        days := days.(disallowed := days.disallowed + [date]);
      }
    }
  }

  function FormattedDates(dates: seq<Date>, layout: Date -> string): seq<string>
  {
    seq(|dates|, i requires 0 <= i < |dates| => layout(dates[i]))
  }

  /** `FormatDates`: one label per date, in the same order. The label layout
      is a parameter. */
  method FormatDates(dates: seq<Date>, layout: Date -> string) returns (formatted: seq<string>)
    ensures |formatted| == |dates|
    ensures forall i :: 0 <= i < |dates| ==> formatted[i] == layout(dates[i])
    ensures formatted == FormattedDates(dates, layout)
  {
    var a := new string[|dates|];
    for i := 0 to |dates|
      invariant forall j :: 0 <= j < i ==> a[j] == layout(dates[j])
    {
      a[i] := layout(dates[i]);
    }
    formatted := a[..];
  }

  /** A user prompt: `""`, or the named template rendered with the arguments
      `allowed`, `disallowed` and `sport`. */
  datatype UserPrompt =
    | Blank
    | Rendered(template: string, allowed: seq<string>, disallowed: seq<string>, sport: string)

  /** The two results of `userPromptOfSport`. */
  datatype SportPrompt = SportPrompt(prompt: UserPrompt, days: AllowedDisallowedDays)

  /** `fmt.Sprintf("plan_%s", sport)`, which uses `Sport.String`. */
  function PlanTemplate(sport: Profile.Sport): string
    requires sport <= Profile.Running
  {
    "plan_" + Profile.SportName(sport)
  }

  const GenericPlanTemplate: string := "plan_sport"

  /** The availability of one sport, from its allowed weekdays. */
  function SportAvailability(fitness: Fitness.Fitness, sport: Profile.Sport, today: Instant): AllowedDisallowedDays
    requires sport <= Profile.Running
  {
    Availability(today, fitness.activitiesThisWeek, Profile.AllowedDaysOfSport(fitness.profile, sport))
  }

  /** The sport has at least one allowed day among the next three. */
  predicate Qualifies(fitness: Fitness.Fitness, sport: Profile.Sport, today: Instant)
    requires sport <= Profile.Running
  {
    |SportAvailability(fitness, sport, today).allowed| > 0
  }

  /** `userPromptOfSport`; `templates` is the set of names `Has` reports. */
  function UserPromptOfSport(
    fitness: Fitness.Fitness, sport: Profile.Sport, templates: set<string>, today: Instant, layout: Date -> string)
    : (r: SportPrompt)
    requires sport <= Profile.Running
    ensures r.days == SportAvailability(fitness, sport, today)
    ensures r.prompt.Blank? <==> !Qualifies(fitness, sport, today)
    ensures r.prompt.Blank? <==>
              forall d :: StartDate(today, fitness.activitiesThisWeek) <= d < StartDate(today, fitness.activitiesThisWeek) + 3
                ==> WeekdayOf(d) !in Profile.AllowedDaysOfSport(fitness.profile, sport)
    ensures r.prompt.Rendered? ==>
              r.prompt.template == if PlanTemplate(sport) in templates then PlanTemplate(sport) else GenericPlanTemplate
    ensures r.prompt.Rendered? ==>
              && r.prompt.allowed == FormattedDates(r.days.allowed, layout)
              && r.prompt.disallowed == FormattedDates(r.days.disallowed, layout)
              && r.prompt.sport == Profile.SportName(sport)
  {
    var days := SportAvailability(fitness, sport, today);
    AvailabilityProperties(today, fitness.activitiesThisWeek, Profile.AllowedDaysOfSport(fitness.profile, sport));
    if |days.allowed| == 0 then
      SportPrompt(Blank, days)
    else
      assert days.allowed[0] in days.allowed;
      var wanted := PlanTemplate(sport);
      var templateName := if wanted in templates then wanted else GenericPlanTemplate;
      SportPrompt(
        Rendered(templateName, FormattedDates(days.allowed, layout), FormattedDates(days.disallowed, layout), Profile.SportName(sport)),
        days)
  }

  predicate ValidSports(sports: seq<Profile.Sport>)
  {
    forall i :: 0 <= i < |sports| ==> sports[i] <= Profile.Running
  }

  function KeptTest(fitness: Fitness.Fitness, filterUnavailable: bool, today: Instant): Profile.Sport -> bool
  {
    (s: Profile.Sport) => !filterUnavailable || (s <= Profile.Running && Qualifies(fitness, s, today))
  }

  /** The sports `templateMultiSportArgs` keeps, in `AllSports` order. */
  function KeptSports(fitness: Fitness.Fitness, allSports: seq<Profile.Sport>, filterUnavailable: bool, today: Instant)
    : (r: seq<Profile.Sport>)
    requires ValidSports(allSports)
    ensures ValidSports(r)
  {
    var test := KeptTest(fitness, filterUnavailable, today);
    var r := Filter(allSports, test);
    FilterMembers(allSports, test);
    assert forall i :: 0 <= i < |r| ==> r[i] in r && r[i] in allSports;
    r
  }

  /** With filtering, exactly the sports with an allowed day are kept, in
      `AllSports` order; without it, all of them. */
  lemma KeptSportsProperties(fitness: Fitness.Fitness, allSports: seq<Profile.Sport>, filterUnavailable: bool, today: Instant)
    requires ValidSports(allSports)
    ensures var r := KeptSports(fitness, allSports, filterUnavailable, today);
            && (forall s :: s in r <==> s in allSports && (!filterUnavailable || Qualifies(fitness, s, today)))
            && IsSubsequence(r, allSports)
            && (!filterUnavailable ==> r == allSports)
  {
    var test := KeptTest(fitness, filterUnavailable, today);
    FilterMembers(allSports, test);
    FilterIsSubsequence(allSports, test);
    if !filterUnavailable {
      FilterKeepsAll(allSports, test);
    }
  }

  /** The `days` entry of one sport. */
  function DayStringsOf(fitness: Fitness.Fitness, sport: Profile.Sport, today: Instant, layout: Date -> string)
    : AllowedDisallowedDayStrings
    requires sport <= Profile.Running
  {
    var days := SportAvailability(fitness, sport, today);
    AllowedDisallowedDayStrings(FormattedDates(days.allowed, layout), FormattedDates(days.disallowed, layout))
  }

  /** The map `templateMultiSportArgs` returns, as a record. */
  datatype MultiSportArgs = MultiSportArgs(
    sports: seq<string>,
    sportsCapitalized: seq<string>,
    days: map<string, AllowedDisallowedDayStrings>)

  /** `names` are the names of `kept`, position by position. */
  predicate NamesOf(names: seq<string>, kept: seq<Profile.Sport>)
    requires ValidSports(kept)
  {
    |names| == |kept| && forall i :: 0 <= i < |kept| ==> names[i] == Profile.SportName(kept[i])
  }

  predicate CapitalizedAlongside(capitalized: seq<string>, names: seq<string>)
  {
    |capitalized| == |names| && forall i :: 0 <= i < |names| ==> capitalized[i] == Util.Capitalize(names[i])
  }

  /** `days` has an entry for each sport of `kept`, under its name, and no other. */
  ghost predicate EntriesOf(
    days: map<string, AllowedDisallowedDayStrings>, kept: seq<Profile.Sport>,
    fitness: Fitness.Fitness, today: Instant, layout: Date -> string)
    requires ValidSports(kept)
  {
    && (forall name :: name in days <==> exists i :: 0 <= i < |kept| && Profile.SportName(kept[i]) == name)
    && (forall i :: 0 <= i < |kept| ==> days[Profile.SportName(kept[i])] == DayStringsOf(fitness, kept[i], today, layout))
  }

  /** `args` names the kept sports in order, capitalised alongside, and maps
      exactly those names to their formatted days. */
  ghost predicate IsMultiSportArgs(
    args: MultiSportArgs, fitness: Fitness.Fitness, allSports: seq<Profile.Sport>,
    filterUnavailable: bool, today: Instant, layout: Date -> string)
    requires ValidSports(allSports)
  {
    var kept := KeptSports(fitness, allSports, filterUnavailable, today);
    && NamesOf(args.sports, kept)
    && CapitalizedAlongside(args.sportsCapitalized, args.sports)
    && EntriesOf(args.days, kept, fitness, today, layout)
  }

  lemma EntriesOfSnoc(
    days: map<string, AllowedDisallowedDayStrings>, kept: seq<Profile.Sport>, sport: Profile.Sport,
    fitness: Fitness.Fitness, today: Instant, layout: Date -> string)
    requires ValidSports(kept) && sport <= Profile.Running
    requires EntriesOf(days, kept, fitness, today, layout)
    ensures ValidSports(kept + [sport])
    ensures EntriesOf(days[Profile.SportName(sport) := DayStringsOf(fitness, sport, today, layout)],
                      kept + [sport], fitness, today, layout)
  {
    var name := Profile.SportName(sport);
    var next := kept + [sport];
    var days' := days[name := DayStringsOf(fitness, sport, today, layout)];
    forall n
      ensures n in days' <==> exists i :: 0 <= i < |next| && Profile.SportName(next[i]) == n
    {
      if n == name {
        assert next[|kept|] == sport;
      } else if n in days {
        var i :| 0 <= i < |kept| && Profile.SportName(kept[i]) == n;
        assert next[i] == kept[i];
      } else {
        assert forall i :: 0 <= i < |kept| ==> next[i] == kept[i];
      }
    }
    forall i | 0 <= i < |next|
      ensures days'[Profile.SportName(next[i])] == DayStringsOf(fitness, next[i], today, layout)
    {
      Profile.SportNameInjective(next[i], sport);
    }
  }

  lemma KeptSportsSnoc(
    fitness: Fitness.Fitness, allSports: seq<Profile.Sport>, sport: Profile.Sport, filterUnavailable: bool, today: Instant)
    requires ValidSports(allSports) && sport <= Profile.Running
    ensures ValidSports(allSports + [sport])
    ensures KeptSports(fitness, allSports + [sport], filterUnavailable, today)
            == KeptSports(fitness, allSports, filterUnavailable, today)
               + (if !filterUnavailable || Qualifies(fitness, sport, today) then [sport] else [])
  {
    FilterSnoc(allSports, sport, KeptTest(fitness, filterUnavailable, today));
  }

  /** One iteration of the loop of `templateMultiSportArgs` keeps the
      arguments in step with the sports seen so far. */
  lemma MultiSportArgsSnoc(
    args: MultiSportArgs, fitness: Fitness.Fitness, allSports: seq<Profile.Sport>, sport: Profile.Sport,
    filterUnavailable: bool, today: Instant, layout: Date -> string)
    requires ValidSports(allSports) && sport <= Profile.Running
    requires IsMultiSportArgs(args, fitness, allSports, filterUnavailable, today, layout)
    ensures ValidSports(allSports + [sport])
    ensures var name := Profile.SportName(sport);
            var next := if !filterUnavailable || Qualifies(fitness, sport, today)
                        then MultiSportArgs(args.sports + [name], args.sportsCapitalized + [Util.Capitalize(name)],
                                            args.days[name := DayStringsOf(fitness, sport, today, layout)])
                        else args;
            IsMultiSportArgs(next, fitness, allSports + [sport], filterUnavailable, today, layout)
  {
    KeptSportsSnoc(fitness, allSports, sport, filterUnavailable, today);
    var kept := KeptSports(fitness, allSports, filterUnavailable, today);
    var kept' := KeptSports(fitness, allSports + [sport], filterUnavailable, today);
    if !filterUnavailable || Qualifies(fitness, sport, today) {
      var name := Profile.SportName(sport);
      assert kept' == kept + [sport];
      EntriesOfSnoc(args.days, kept, sport, fitness, today, layout);
      assert NamesOf(args.sports + [name], kept');
      assert CapitalizedAlongside(args.sportsCapitalized + [Util.Capitalize(name)], args.sports + [name]);
    } else {
      assert kept' == kept;
    }
  }

  /** `templateMultiSportArgs`, with `AllSports()` given as `allSports`. */
  method TemplateMultiSportArgs(
    fitness: Fitness.Fitness, allSports: seq<Profile.Sport>, filterUnavailable: bool,
    today: Instant, layout: Date -> string)
    returns (args: MultiSportArgs)
    requires ValidSports(allSports)
    ensures IsMultiSportArgs(args, fitness, allSports, filterUnavailable, today, layout)
  {
    args := MultiSportArgs([], [], map[]);

    for i := 0 to |allSports|
      invariant ValidSports(allSports[..i])
      invariant IsMultiSportArgs(args, fitness, allSports[..i], filterUnavailable, today, layout)
    {
      assert allSports[..i + 1] == allSports[..i] + [allSports[i]];
      args := AddSportArgs(args, fitness, allSports[..i], allSports[i], filterUnavailable, today, layout);
    }
    assert allSports[..|allSports|] == allSports;
  }

  /** The body of the loop of `templateMultiSportArgs` for one sport. */
  method AddSportArgs(
    args: MultiSportArgs, fitness: Fitness.Fitness, seen: seq<Profile.Sport>, sport: Profile.Sport,
    filterUnavailable: bool, today: Instant, layout: Date -> string)
    returns (next: MultiSportArgs)
    requires ValidSports(seen) && sport <= Profile.Running
    requires IsMultiSportArgs(args, fitness, seen, filterUnavailable, today, layout)
    ensures ValidSports(seen + [sport])
    ensures IsMultiSportArgs(next, fitness, seen + [sport], filterUnavailable, today, layout)
  {
    MultiSportArgsSnoc(args, fitness, seen, sport, filterUnavailable, today, layout);
    var allowedDisallowedDays := NextThreeDays(today, fitness.activitiesThisWeek, Profile.AllowedDaysOfSport(fitness.profile, sport));

    next := args;
    if !(filterUnavailable && |allowedDisallowedDays.allowed| == 0) {
      var name := Profile.SportName(sport);
      var allowed := FormatDates(allowedDisallowedDays.allowed, layout);
      var disallowed := FormatDates(allowedDisallowedDays.disallowed, layout);
      next := MultiSportArgs(
        args.sports + [name],
        args.sportsCapitalized + [Util.Capitalize(name)],
        args.days[name := AllowedDisallowedDayStrings(allowed, disallowed)]);
    }
  }

  /** The profile's sport names are already capitalised, so the two lists of
      the arguments coincide. */
  lemma SportsAlreadyCapitalized(
    args: MultiSportArgs, fitness: Fitness.Fitness, allSports: seq<Profile.Sport>,
    filterUnavailable: bool, today: Instant, layout: Date -> string)
    requires ValidSports(allSports)
    requires IsMultiSportArgs(args, fitness, allSports, filterUnavailable, today, layout)
    ensures args.sportsCapitalized == args.sports
  {
    var kept := KeptSports(fitness, allSports, filterUnavailable, today);
    forall i | 0 <= i < |args.sports|
      ensures args.sportsCapitalized[i] == args.sports[i]
    {
      SportNameCapitalized(kept[i]);
    }
  }

  lemma SportNameCapitalized(sport: Profile.Sport)
    requires sport <= Profile.Running
    ensures Util.Capitalize(Profile.SportName(sport)) == Profile.SportName(sport)
  {
    var name := Profile.SportName(sport);
    assert |name| == 7;
    assert !Strings.IsLowerAscii(name[0]);
    assert forall i :: 1 <= i < |name| ==> !Strings.IsUpperAscii(name[i]);
    Util.CapitalizeUnique(name, name);
  }

  /** The sports `MultiStep` can plan: those with an allowed day. */
  function QualifyingSports(fitness: Fitness.Fitness, allSports: seq<Profile.Sport>, today: Instant): set<Profile.Sport>
    requires ValidSports(allSports)
  {
    set s | s in allSports && Qualifies(fitness, s, today)
  }

  /** `sportData`: the prompt, the availability and the (not yet written)
      draft response of one sport. */
  datatype SportData = SportData(userPrompt: UserPrompt, days: AllowedDisallowedDays, response: string)

  function DraftOf(
    fitness: Fitness.Fitness, sport: Profile.Sport, templates: set<string>, today: Instant, layout: Date -> string)
    : SportData
    requires sport <= Profile.Running
  {
    var sp := UserPromptOfSport(fitness, sport, templates, today, layout);
    SportData(sp.prompt, sp.days, "")
  }

  /** The three strategies of `MultiStep`: print `[]`; one `singleSport`
      pipeline; one draft per sport, then a combination pass. */
  datatype Dispatch =
    | PrintEmptyPlan
    | SingleSport(sport: Profile.Sport, userPrompt: UserPrompt)
    | MultiSport(drafts: map<Profile.Sport, SportData>, combine: MultiSportArgs)

  /** How many actor pipelines a strategy runs: `singleSport` chains a
      planning actor and an output actor; the multi-sport path runs one draft
      actor per sport, then a combining actor and an output actor. */
  function ActorRuns(d: Dispatch): nat
  {
    match d
    case PrintEmptyPlan => 0
    case SingleSport(_, _) => 2
    case MultiSport(drafts, _) => |drafts| + 2
  }

  lemma QualifyingSportsSnoc(
    fitness: Fitness.Fitness, allSports: seq<Profile.Sport>, sport: Profile.Sport, today: Instant)
    requires ValidSports(allSports) && sport <= Profile.Running
    ensures ValidSports(allSports + [sport])
    ensures QualifyingSports(fitness, allSports + [sport], today)
            == QualifyingSports(fitness, allSports, today) + (if Qualifies(fitness, sport, today) then {sport} else {})
  {
  }

  lemma SingletonSet<T>(s: set<T>, x: T)
    requires |s| == 1 && x in s
    ensures s == {x}
  {
    assert |s - {x}| == 0;
  }

  /** `MultiStep` up to the point where it runs a pipeline. */
  method MultiStep(
    fitness: Fitness.Fitness, allSports: seq<Profile.Sport>, templates: set<string>,
    today: Instant, layout: Date -> string)
    returns (d: Dispatch)
    requires ValidSports(allSports)
    ensures d.PrintEmptyPlan? <==> QualifyingSports(fitness, allSports, today) == {}
    ensures d.SingleSport? <==> |QualifyingSports(fitness, allSports, today)| == 1
    ensures d.SingleSport? ==>
              && QualifyingSports(fitness, allSports, today) == {d.sport}
              && d.userPrompt == UserPromptOfSport(fitness, d.sport, templates, today, layout).prompt
    ensures d.MultiSport? ==>
              && d.drafts.Keys == QualifyingSports(fitness, allSports, today)
              && (forall s :: s in d.drafts ==> d.drafts[s] == DraftOf(fitness, s, templates, today, layout))
              && IsMultiSportArgs(d.combine, fitness, allSports, true, today, layout)
    ensures ActorRuns(d) == var n := |QualifyingSports(fitness, allSports, today)|;
                            if n == 0 then 0 else if n == 1 then 2 else n + 2
  {
    var sportMap: map<Profile.Sport, SportData> := map[];

    for i := 0 to |allSports|
      invariant ValidSports(allSports[..i])
      invariant sportMap.Keys == QualifyingSports(fitness, allSports[..i], today)
      invariant forall s :: s in sportMap ==> sportMap[s] == DraftOf(fitness, s, templates, today, layout)
    {
      var sport := allSports[i];
      assert allSports[..i + 1] == allSports[..i] + [sport];
      QualifyingSportsSnoc(fitness, allSports[..i], sport, today);
      var sp := UserPromptOfSport(fitness, sport, templates, today, layout);
      if |sp.days.allowed| != 0 {
        sportMap := sportMap[sport := SportData(sp.prompt, sp.days, "")];
      }
    }
    assert allSports[..|allSports|] == allSports;

    if |sportMap.Keys| == 0 {
      return PrintEmptyPlan;
    }
    if |sportMap.Keys| == 1 {
      var sport :| sport in sportMap;
      SingletonSet(sportMap.Keys, sport);
      return SingleSport(sport, sportMap[sport].userPrompt);
    }

    var combine := TemplateMultiSportArgs(fitness, allSports, true, today, layout);
    d := MultiSport(sportMap, combine);
  }

  /** The combination prompt of the multi-sport path names exactly the sports
      that were drafted. */
  lemma CombineNamesTheDraftedSports(
    args: MultiSportArgs, fitness: Fitness.Fitness, allSports: seq<Profile.Sport>, today: Instant, layout: Date -> string)
    requires ValidSports(allSports)
    requires IsMultiSportArgs(args, fitness, allSports, true, today, layout)
    ensures forall name :: name in args.sports <==>
              exists s :: s in QualifyingSports(fitness, allSports, today) && Profile.SportName(s) == name
  {
    var kept := KeptSports(fitness, allSports, true, today);
    KeptSportsProperties(fitness, allSports, true, today);
    forall name
      ensures name in args.sports <==>
                exists s :: s in QualifyingSports(fitness, allSports, today) && Profile.SportName(s) == name
    {
      if name in args.sports {
        var i :| 0 <= i < |args.sports| && args.sports[i] == name;
        assert kept[i] in kept;
        assert kept[i] in QualifyingSports(fitness, allSports, today);
      }
      if s :| s in QualifyingSports(fitness, allSports, today) && Profile.SportName(s) == name {
        assert s in kept;
        var i :| 0 <= i < |kept| && kept[i] == s;
        assert args.sports[i] == name;
      }
    }
  }

  /** Every drafted sport has a rendered prompt and at least one allowed day. */
  lemma DraftsHavePrompts(
    fitness: Fitness.Fitness, sport: Profile.Sport, templates: set<string>, today: Instant, layout: Date -> string)
    requires sport <= Profile.Running && Qualifies(fitness, sport, today)
    ensures DraftOf(fitness, sport, templates, today, layout).userPrompt.Rendered?
    ensures |DraftOf(fitness, sport, templates, today, layout).days.allowed| > 0
  {
  }

  /** `SingleStep` up to its pipeline: the arguments of the
      `plan_single_step` system prompt, which keep every sport. */
  method SingleStep(fitness: Fitness.Fitness, allSports: seq<Profile.Sport>, today: Instant, layout: Date -> string)
    returns (args: MultiSportArgs)
    requires ValidSports(allSports)
    ensures IsMultiSportArgs(args, fitness, allSports, false, today, layout)
    ensures |args.sports| == |allSports|
  {
    KeptSportsProperties(fitness, allSports, false, today);
    args := TemplateMultiSportArgs(fitness, allSports, false, today, layout);
  }
}

# velora planning core, modelled in Dafny

velora is a command-line training assistant. It keeps logged workouts (running, cycling, swimming) and a per-sport profile of preferences. It asks a language model for a workout plan covering the next three days. This project models the deterministic part of that planner, which:

- splits the logged activities into this week, last week and older (week boundaries are Monday 00:00);
- works out, for each sport, which of the next three days it may be planned on: the allowed weekdays come from the profile, and the window starts tomorrow if something is already logged today;
- formats the dates, picks the prompt template for a sport (`plan_Cycling`, falling back to `plan_sport`) and builds the arguments of the multi-sport templates (sport names, capitalised names, per-sport date lists);
- has `MultiStep` choose between printing an empty plan, a single-sport pipeline, or per-sport drafts followed by a combination pass, depending on how many sports have an allowed day;
- provides the supporting codecs:
  - sport names to and from strings (`db.Sport` and `profile.Sport`);
  - weekday sets to and from JSON name lists;
  - validation of a logged activity (`ToActivity`);
  - `BeginningOfWeek`, `Complement` and `Capitalize`.

Modules follow the Go packages:

- `Time`: local calendar time. Seconds and day numbers, `time.Weekday`.
- `Strings`: ASCII case mapping.
- `Seqs`: order-preserving filtering and subsequences.
- `Wrappers`: `Option` and `Result`.
- `Util`, `Db`, `Profile`, `Fitness`, `Plan`: the packages of the same names.

Clock readings (`time.Now()`), the set of templates a `template.Parsed` has, the date layout and the outcome of reading files or JSON are parameters. Go's `util.Assert` and `util.Fatalf` on an out-of-range sport become preconditions. `Profile.AllSports()` and `util.AllDays` are not part of this model, so both are parameters (`allSports`, `allDays`).

## Model

| member | source | states |
|---|---|---|
| Db.SportName | internal/db/db.go:26-29 | only sports 0..2 have a name; the name is one of "running", "cycling", "swimming" and is already lower-case |
| Db.SportNameInjective | internal/db/db.go:26-29 | different sports have different names |
| Db.SportFromString | internal/db/db.go:31-42 | parsing succeeds exactly when the lower-cased input is a sport name, and then yields the sport with that name; otherwise Running with the error "invalid sport: " plus the input |
| Db.SportRoundTrip | internal/db/db.go:26-42 | parsing the name of a sport gives that sport back, with no error |
| Db.SportFromStringIgnoresCase | internal/db/db.go:31-42 | any spelling whose lower-case form is a sport's name parses to that sport |
| Db.SportFromUpperCaseName | internal/db/db.go:31-42 | the upper-case name of a sport parses to that sport |
| Db.Normalised | internal/db/db.go:91-93 | a non-positive total duration is replaced by the moving duration; nothing else changes, and a positive total is kept |
| Db.ToActivity | internal/db/db.go:90-113 | an invalid sport returns the zero activity and the parse error; otherwise the normalised activity with its parsed sport is returned, with an error exactly when duration, distance or vertical gain is out of range; the reported error is the last failing check (vertical gain, then distance, then duration) |
| Profile.SportName | internal/profile/profile.go:23-26 | only Cycling (0) and Running (1) have a name, "Cycling" or "Running" |
| Profile.SportNameInjective | internal/profile/profile.go:23-26 | different sports have different names |
| Profile.AllowedDaysOfSport | internal/profile/profile.go:165-175 | Cycling reads the cycling constraints' allowed days and Running the running ones; other values are fatal and excluded |
| Profile.AllowedDaysAny | internal/profile/profile.go:177-192 | the result is the union of both sports' allowed days: a weekday is in it exactly when some sport allows it |
| Profile.Complement | internal/profile/profile.go:69-77 | a weekday is in the result exactly when it is listed in all-days and not in the set; the result is disjoint from the set, and is the set's complement when all-days lists every weekday |
| Profile.ParseDayName | internal/profile/profile.go:43-62 | exactly the seven English weekday names are accepted, case-sensitively, and each parses to the weekday whose `String` it is |
| Profile.ParseWeekdayName | internal/profile/profile.go:43-62 | every weekday's name parses back to that weekday |
| Profile.DecodeSnoc | internal/profile/profile.go:43-63 | one more name either fails with "invalid day: " plus the name, adds its day, or changes nothing after an earlier failure |
| Profile.DecodeStops | internal/profile/profile.go:60-61 | once a name has failed, the names after it change neither the set nor the error |
| Profile.DecodeSucceeds | internal/profile/profile.go:42-66 | decoding succeeds exactly when every name is a weekday name, and then the set holds exactly the named days |
| Profile.DecodeFails | internal/profile/profile.go:60-62 | on failure the error names the first non-day name, and the set holds the days named before it |
| Profile.AllowedDaysVar.UnmarshalJSON | internal/profile/profile.go:36-67 | a JSON error is returned with the variable untouched; otherwise the variable is reset and filled name by name, and the new set and error are what decoding the list gives |
| Profile.MarshalJSON | internal/profile/profile.go:28-34 | one distinct name per day, in any order; a weekday is in the set exactly when its name is listed; decoding the names gives the set back with no error |
| Util.BeginningOfWeek | internal/util/time.go:6-19 | the result is a midnight falling on a Monday, at most six days before `t`'s date, with `t` in the seven days that start there |
| Util.BeginningOfWeekOfSunday | internal/util/time.go:12-15 | a Sunday belongs to the week starting six days earlier |
| Util.BeginningOfWeekOfMonday | internal/util/time.go:12-17 | on a Monday the week starts at that day's midnight |
| Util.BeginningOfWeekIdempotent | internal/util/time.go:6-19 | the start of the week of a week's start is that start |
| Util.BeginningOfWeekUnique | internal/util/time.go:5-19 | any Monday midnight at or before `t` and less than a week before it equals the result |
| Util.Capitalize | internal/util/util.go:60-65 | same length; first character not lower-case, the rest not upper-case; equal to the input up to case |
| Util.CapitalizeUnique | internal/util/util.go:60-65 | the capitalised form is the only capitalised string equal to the input up to case |
| Util.CapitalizeIdempotent | internal/util/util.go:60-65 | capitalising twice is capitalising once |
| Util.CapitalizeEmpty | internal/util/util.go:61-63 | the empty string is returned unchanged |
| Fitness.Partition | internal/fitness/fitness.go:32-42 | each list is exactly the input's activities of its period, in input order |
| Fitness.PartitionIsExact | internal/fitness/fitness.go:32-42 | every activity lands in exactly one list: the three lists together are the input as a multiset, and their lengths add up to its length |
| Fitness.PeriodContents | internal/fitness/fitness.go:24-42 | this week is strictly after Monday 00:00, last week is the seven days before it (its start excluded, Monday 00:00 included), older is the rest; each list is a subsequence of the input |
| Fitness.Read | internal/fitness/fitness.go:22-59 | the profile is kept, the activities are split around `BeginningOfWeek(now)`, and a skeleton read error falls back to the empty skeleton |
| Plan.NextThreeDays | internal/plan/plan.go:80-108 | the result is the classification of the three dates from the start date (tomorrow if any activity this week is dated today) |
| Plan.ClassifyPartitions | internal/plan/plan.go:98-105 | the allowed and disallowed lists split the dates exactly: a date is allowed exactly when its weekday is; both lists ascend |
| Plan.AvailabilityProperties | internal/plan/plan.go:80-108 | three dates in all, each in exactly one list; today is among them exactly when nothing is logged today, and the day three days ahead exactly when something is |
| Plan.ThursdayExample | internal/plan/plan.go:80-108 | with Monday, Wednesday and Friday allowed on a Thursday, Friday is allowed and Thursday and Saturday are not; an activity that morning moves the window to Friday..Sunday |
| Plan.FormatDates | internal/plan/plan.go:110-116 | one label per date, position by position, in the given layout |
| Plan.UserPromptOfSport | internal/plan/plan.go:118-144 | the days are the sport's availability; the prompt is blank exactly when no date in the window has an allowed weekday; otherwise it renders `plan_<Sport>` when that template exists and `plan_sport` otherwise, with the formatted lists and the sport's name |
| Plan.KeptSportsProperties | internal/plan/plan.go:157-164 | with filtering, a sport is kept exactly when it has an allowed day, in input order; without filtering, every sport is kept |
| Plan.KeptSportsSnoc | internal/plan/plan.go:157-163 | one more sport is appended to the kept list exactly when it is kept |
| Plan.EntriesOfSnoc | internal/plan/plan.go:166-169 | storing a sport's formatted days under its name keeps the map an exact index of the kept sports |
| Plan.MultiSportArgsSnoc | internal/plan/plan.go:157-170 | one loop step appends the name and the capitalised name and stores the days when the sport is kept, and changes nothing otherwise |
| Plan.AddSportArgs | internal/plan/plan.go:158-169 | the loop body keeps the arguments exact for the sports seen so far |
| Plan.TemplateMultiSportArgs | internal/plan/plan.go:152-177 | `sports` lists the kept sports' names in order, `sportsCapitalized` their capitalised names alongside, and `days` maps exactly those names to their formatted dates |
| Plan.SportNameCapitalized | internal/plan/plan.go:164-165 | capitalising a profile sport's name leaves it unchanged |
| Plan.SportsAlreadyCapitalized | internal/plan/plan.go:164-165 | the capitalised list equals the name list |
| Plan.QualifyingSportsSnoc | internal/plan/plan.go:242-252 | one more sport enters the map's key set exactly when it has an allowed day |
| Plan.MultiStep | internal/plan/plan.go:239-305 | no sport with an allowed day gives the empty plan; exactly one gives that sport's single pipeline with its prompt; otherwise every such sport gets a draft with its prompt and days, and the combination arguments keep the sports with an allowed day; the actor runs are 0, 2 or n + 2 |
| Plan.CombineNamesTheDraftedSports | internal/plan/plan.go:240-293 | the combination prompt names exactly the sports that were drafted |
| Plan.DraftsHavePrompts | internal/plan/plan.go:243-251 | every drafted sport has a rendered prompt and at least one allowed day |
| Plan.SingleStep | internal/plan/plan.go:307-326 | the single-step system prompt's arguments keep every sport, in order |

## Left out

- The language-model pipelines (`singleSport`, the drafting and combining actors, `output_plan`), the system prompts and `userPromptFitness` are left out. They are network calls and JSON rendering. `MultiStep` and `SingleStep` stop where a pipeline would run, and `MultiStep` returns which strategy runs and with what.
- Template execution is left out. It is the Go template engine. A prompt is modelled as the template name and its arguments (`Rendered`), and `Has` as membership in a given set of names. Template errors are fatal in the source and are not modelled.
- JSON syntax is left out. `json.Unmarshal` is represented by its outcome (the list of names or an error), and marshalling stops at the list of names.
- File and database access is left out: `profile.Read`, `profile.ReadSkeleton` and `db.LastActivities`. Their results are parameters of `Fitness.Read`. A failure of the first or the last is fatal in the source, so it is not modelled.
- Time zones and daylight saving time are left out. An instant is a count of seconds in local time and every day has 86400 seconds. Date comparison by `Format("2006-01-02")` becomes comparison of day numbers.
- The date layout `"2006-01-02 (Mon)"` is a function parameter of `FormatDates`.
- Plan.NextThreeDays: the source calls `time.Now()` again in every call. The model reads the clock once, as `today`, shared by all sports of one run.
- Util.Capitalize: exact only for ASCII strings. The model splits off the first character, while Go's `s[:1]` splits off the first byte, so a non-ASCII first character is cut inside its encoding and becomes U+FFFD after case mapping. Go's Unicode case mapping, including the non-ASCII letters that `strings.ToLower` maps into ASCII, is not modelled either. The core only capitalises "Cycling" and "Running", which are ASCII.
- Db.SportFromString: case-insensitivity is modelled through ASCII lower-casing only, for the same reason.
- `AllowedDays.String`, `SportConstraints` JSON, `Plan.Write`, `ActivityUnsafe.OutputTo`, `FormatDistance` and the other formatting helpers are left out. They produce display text only.
- `profile.Sport` and `db.Sport` outside their named ranges are fatal in the source. They are excluded by preconditions rather than modelled as exits.
- The three-day window moves to tomorrow for any activity logged today, whatever its sport (internal/plan/plan.go:90-96); the model follows the code. The window length is fixed at three days, as in the code.

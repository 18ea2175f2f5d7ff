/** internal/profile: the user's per-sport preferences, the weekday sets they
    contain with their JSON name-list form, and the saved weekly skeleton. */
module Profile {
  import opened Wrappers
  import opened Time
  import Db

  /** `profile.Sport` is a Go `uint8`; only 0 and 1 name a sport. */
  newtype Sport = x: int | 0 <= x < 256

  const Cycling: Sport := 0
  const Running: Sport := 1

  const SportNames: seq<string> := ["Cycling", "Running"]

  /** `Sport.String`; the source asserts the range and exits otherwise. */
  function SportName(s: Sport): (r: string)
    requires s <= Running
    ensures r in SportNames
  {
    SportNames[s as int]
  }

  lemma SportNameInjective(s: Sport, t: Sport)
    requires s <= Running && t <= Running
    ensures SportName(s) == SportName(t) <==> s == t
  {
  }

  /** `AllowedDays`: the set of weekdays a sport may be scheduled on. */
  type AllowedDays = set<Weekday>

  const AllWeekdays: AllowedDays := {Sunday, Monday, Tuesday, Wednesday, Thursday, Friday, Saturday}

  lemma InAllWeekdays(w: Weekday)
    ensures w in AllWeekdays
  {
  }

  datatype SportConstraints = SportConstraints(
    targetWeeklyDistance: nat,
    targetDistance: nat,
    allowedDays: AllowedDays,
    trainsIndoors: bool,
    targetDistanceDate: Instant)

  datatype Profile = Profile(
    cyclingConstraints: SportConstraints,
    runningConstraints: SportConstraints,
    ftp: nat)

  /** `Profile.AllowedDaysOfSport`; any other sport value is fatal in the source. */
  function AllowedDaysOfSport(p: Profile, sport: Sport): (r: AllowedDays)
    requires sport <= Running
    ensures sport == Cycling ==> r == p.cyclingConstraints.allowedDays
    ensures sport == Running ==> r == p.runningConstraints.allowedDays
  {
    if sport == Cycling then p.cyclingConstraints.allowedDays
    else p.runningConstraints.allowedDays
  }

  /** `Profile.AllowedDaysAny`: every weekday some sport may use. Both source
      sets are only read. */
  method AllowedDaysAny(p: Profile) returns (result: AllowedDays)
    ensures result == p.cyclingConstraints.allowedDays + p.runningConstraints.allowedDays
    ensures forall w :: w in result <==>
              exists s: Sport :: s <= Running && w in AllowedDaysOfSport(p, s)
  {
    var cycling := p.cyclingConstraints.allowedDays;
    var running := p.runningConstraints.allowedDays;

    result := {};

    var rest := cycling;
    while rest != {}
      invariant rest <= cycling && result == cycling - rest
      decreases rest
    {
      var day :| day in rest;
      result := result + {day};
      rest := rest - {day};
    }

    rest := running;
    while rest != {}
      invariant rest <= running && result == cycling + (running - rest)
      decreases rest
    {
      var day :| day in rest;
      result := result + {day};
      rest := rest - {day};
    }

    assert AllowedDaysOfSport(p, Cycling) == cycling;
    assert AllowedDaysOfSport(p, Running) == running;
  }

  /** `AllowedDays.Complement`: the days of `allDays` (the source's
      `util.AllDays`) that are not in `d`. */
  method Complement(d: AllowedDays, allDays: seq<Weekday>) returns (c: AllowedDays)
    ensures forall w :: w in c <==> w in allDays && w !in d
    ensures c !! d
    ensures (forall w: Weekday :: w in allDays) ==> c == AllWeekdays - d
  {
    c := {};
    for i := 0 to |allDays|
      invariant forall w :: w in c <==> w in allDays[..i] && w !in d
    {
      var day := allDays[i];
      if day !in d {
        c := c + {day};
      }
      assert allDays[..i + 1] == allDays[..i] + [day];
    }
    assert allDays[..|allDays|] == allDays;
    if forall w: Weekday :: w in allDays {
      forall w: Weekday | w in AllWeekdays - d
        ensures w in c
      {
      }
      forall w | w in c
        ensures w in AllWeekdays - d
      {
        InAllWeekdays(w);
      }
    }
  }

  /** The weekday a JSON day name stands for: the seven English names,
      case-sensitively. */
  function ParseDayName(s: string): (r: Option<Weekday>)
    ensures r.Some? <==> s in WeekdayNames
    ensures r.Some? ==> WeekdayName(r.value) == s
  {
    match s
    case "Monday" => Some(Monday)
    case "Tuesday" => Some(Tuesday)
    case "Wednesday" => Some(Wednesday)
    case "Thursday" => Some(Thursday)
    case "Friday" => Some(Friday)
    case "Saturday" => Some(Saturday)
    case "Sunday" => Some(Sunday)
    case _ => None
  }

  lemma ParseWeekdayName(w: Weekday)
    ensures ParseDayName(WeekdayName(w)) == Some(w)
  {
    WeekdayNamesDistinct(ParseDayName(WeekdayName(w)).value, w);
  }

  /** The state `UnmarshalJSON` leaves behind: the set filled so far and the
      error, if any. */
  datatype Decoded = Decoded(days: AllowedDays, err: Option<string>)

  /** Decoding a list of day names into a fresh set, stopping at the first
      name that is not a day. */
  function Decode(names: seq<string>): Decoded
    decreases |names|
  {
    if names == [] then Decoded({}, None)
    else
      var prev := Decode(names[..|names| - 1]);
      var name := names[|names| - 1];
      if prev.err.Some? then prev
      else match ParseDayName(name)
        case None => Decoded(prev.days, Some("invalid day: " + name))
        case Some(day) => Decoded(prev.days + {day}, None)
  }

  lemma DecodeSnoc(names: seq<string>, name: string)
    ensures Decode(names + [name]) ==
              if Decode(names).err.Some? then Decode(names)
              else match ParseDayName(name)
                case None => Decoded(Decode(names).days, Some("invalid day: " + name))
                case Some(day) => Decoded(Decode(names).days + {day}, None)
  {
    assert (names + [name])[..|names|] == names;
  }

  /** Once a name has failed, later names change nothing. */
  lemma {:induction false} DecodeStops(names: seq<string>, more: seq<string>)
    requires Decode(names).err.Some?
    ensures Decode(names + more) == Decode(names)
    decreases |more|
  {
    if more != [] {
      var init := more[..|more| - 1];
      DecodeStops(names, init);
      assert names + more == (names + init) + [more[|more| - 1]];
      DecodeSnoc(names + init, more[|more| - 1]);
    } else {
      assert names + more == names;
    }
  }

  /** Decoding succeeds exactly when every name is one of the seven day names,
      and then the set holds exactly the named days: duplicates collapse and
      the order does not matter. */
  lemma {:induction false} DecodeSucceeds(names: seq<string>)
    ensures Decode(names).err.None? <==> forall i :: 0 <= i < |names| ==> names[i] in WeekdayNames
    ensures Decode(names).err.None? ==>
              forall w :: w in Decode(names).days <==> WeekdayName(w) in names
    decreases |names|
  {
    if names != [] {
      var init, name := names[..|names| - 1], names[|names| - 1];
      DecodeSucceeds(init);
      assert names == init + [name];
      DecodeSnoc(init, name);
      if Decode(names).err.None? {
        var day := ParseDayName(name).value;
        forall w
          ensures w in Decode(names).days <==> WeekdayName(w) in names
        {
          WeekdayNamesDistinct(w, day);
        }
      }
    }
  }

  /** On failure the error names the first name that is not a day, and the set
      holds the days named before it. */
  lemma {:induction false} DecodeFails(names: seq<string>)
    requires Decode(names).err.Some?
    ensures exists k :: 0 <= k < |names| && names[k] !in WeekdayNames
              && (forall j :: 0 <= j < k ==> names[j] in WeekdayNames)
              && Decode(names).err == Some("invalid day: " + names[k])
              && Decode(names).days == Decode(names[..k]).days
    decreases |names|
  {
    var init, name := names[..|names| - 1], names[|names| - 1];
    assert names == init + [name];
    DecodeSnoc(init, name);
    if Decode(init).err.Some? {
      DecodeFails(init);
      var k :| 0 <= k < |init| && init[k] !in WeekdayNames
              && (forall j :: 0 <= j < k ==> init[j] in WeekdayNames)
              && Decode(init).err == Some("invalid day: " + init[k])
              && Decode(init).days == Decode(init[..k]).days;
      assert init[..k] == names[..k];
    } else {
      DecodeSucceeds(init);
      assert names[..|names| - 1] == init;
    }
  }

  /** The receiver of `(*AllowedDays).UnmarshalJSON`: a variable of type
      `AllowedDays` that decoding overwrites in place. */
  class AllowedDaysVar {
    var days: AllowedDays

    constructor (days: AllowedDays)
      ensures this.days == days
    {
      this.days := days;
    }

    /** `data` is what `json.Unmarshal` made of the document: the list of
        names, or its error, which is returned before the variable is touched.
        Otherwise the old set is discarded and, on an unknown name, the
        variable keeps the days parsed before it. */
    method UnmarshalJSON(data: Result<seq<string>, string>) returns (err: Option<string>)
      modifies this
      ensures data.Failure? ==> err == Some(data.error) && days == old(days)
      ensures data.Success? ==> Decoded(days, err) == Decode(data.value)
    {
      if data.Failure? {
        return Some(data.error);
      }
      var names := data.value;

      days := {};
      for i := 0 to |names|
        invariant Decode(names[..i]) == Decoded(days, None)
      {
        var name := names[i];
        DecodeSnoc(names[..i], name);
        assert names[..i + 1] == names[..i] + [name];
        var day := ParseDayName(name);
        if day.None? {
          DecodeStops(names[..i + 1], names[i + 1..]);
          assert names[..i + 1] + names[i + 1..] == names;
          return Some("invalid day: " + name);
        }
        days := days + {day.value};
      }
      assert names[..|names|] == names;
      err := None;
    }
  }

  /** `AllowedDays.MarshalJSON`: one name per day, in the unspecified order of
      Go's map iteration (here: any order). Decoding the names gives the set
      back. */
  method MarshalJSON(d: AllowedDays) returns (names: seq<string>)
    ensures |names| == |d|
    ensures forall i, j :: 0 <= i < j < |names| ==> names[i] != names[j]
    ensures forall w :: w in d <==> WeekdayName(w) in names
    ensures Decode(names) == Decoded(d, None)
  {
    names := [];
    var rest := d;
    ghost var done: AllowedDays := {};
    while rest != {}
      invariant rest + done == d && rest !! done
      invariant |names| == |done|
      invariant forall i, j :: 0 <= i < j < |names| ==> names[i] != names[j]
      invariant forall w :: w in done <==> WeekdayName(w) in names
      invariant Decode(names) == Decoded(done, None)
      decreases rest
    {
      var day :| day in rest;
      var name := WeekdayName(day);
      forall w | WeekdayName(w) == name
        ensures w == day
      {
        WeekdayNamesDistinct(w, day);
      }
      DecodeSnoc(names, name);
      ParseWeekdayName(day);
      names := names + [name];
      rest := rest - {day};
      done := done + {day};
    }
  }

  datatype SkeletonDay = SkeletonDay(weekday: string, sport: string, distanceMin: int, segments: seq<Db.Segment>)

  datatype SkeletonConflict = SkeletonConflict(weekday: string, sport: string)

  /** The persisted coarse weekly template. */
  datatype Skeleton = Skeleton(sports: seq<string>, days: seq<SkeletonDay>, conflicts: seq<SkeletonConflict>)

  /** `&profile.Skeleton{}`. */
  const EmptySkeleton: Skeleton := Skeleton([], [], [])
}

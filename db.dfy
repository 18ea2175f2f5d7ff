/** internal/db: the sport enumeration with its string codec, and the
    validation that turns an unchecked activity into a storable one. */
module Db {
  import opened Wrappers
  import opened Time
  import opened Strings

  /** `db.Sport` is a Go `uint`; only 0, 1 and 2 name a sport. */
  newtype Sport = x: int | 0 <= x < 0x1_0000_0000_0000_0000

  const Running: Sport := 0
  const Cycling: Sport := 1
  const Swimming: Sport := 2

  const SportNames: seq<string> := ["running", "cycling", "swimming"]

  /** `Sport.String`; the source asserts the range and exits otherwise. */
  function SportName(s: Sport): (r: string)
    requires s <= Swimming
    ensures r in SportNames && ToLower(r) == r
  {
    var r := SportNames[s as int];
    ToLowerOfLower(r);
    r
  }

  /** The two results of `SportFromString`: a sport and a possible error. */
  datatype ParsedSport = ParsedSport(sport: Sport, err: Option<string>)

  /** `SportFromString`: case-insensitive parsing of a sport name. */
  function SportFromString(s: string): (r: ParsedSport)
    ensures r.err.None? <==> ToLower(s) in SportNames
    ensures r.err.None? ==> r.sport <= Swimming && SportName(r.sport) == ToLower(s)
    ensures r.err.Some? ==> r == ParsedSport(Running, Some("invalid sport: " + s))
  {
    var lower := ToLower(s);
    if lower == "running" then ParsedSport(Running, None)
    else if lower == "cycling" then ParsedSport(Cycling, None)
    else if lower == "swimming" then ParsedSport(Swimming, None)
    else ParsedSport(Running, Some("invalid sport: " + s))
  }

  lemma SportNameInjective(s: Sport, t: Sport)
    requires s <= Swimming && t <= Swimming
    ensures SportName(s) == SportName(t) <==> s == t
  {
  }

  /** Printing a sport and parsing the name gives the sport back, without error. */
  lemma SportRoundTrip(s: Sport)
    requires s <= Swimming
    ensures SportFromString(SportName(s)) == ParsedSport(s, None)
  {
    var r := SportFromString(SportName(s));
    SportNameInjective(r.sport, s);
  }

  /** Any spelling whose lower-case form is a sport's name parses to that sport. */
  lemma SportFromStringIgnoresCase(t: string, s: Sport)
    requires s <= Swimming && ToLower(t) == SportName(s)
    ensures SportFromString(t) == ParsedSport(s, None)
  {
    var r := SportFromString(t);
    SportNameInjective(r.sport, s);
  }

  lemma SportFromUpperCaseName(s: Sport)
    requires s <= Swimming
    ensures SportFromString(ToUpper(SportName(s))) == ParsedSport(s, None)
  {
    ToLowerOfUpper(SportName(s));
    SportFromStringIgnoresCase(ToUpper(SportName(s)), s);
  }

  datatype Segment = Segment(repeat: int, distance: int, zone: int)

  /** `ActivityUnsafe`: an activity as it arrives, before validation. */
  datatype ActivityUnsafe = ActivityUnsafe(
    time: Instant,
    duration: int,
    durationTotal: int,
    distance: int,
    sport: string,
    verticalGain: int,
    notes: string,
    wasRecommended: bool,
    segments: seq<Segment>)

  /** The unexported `activity`: a validated copy and its parsed sport. */
  datatype Activity = Activity(a: ActivityUnsafe, sport: Sport)

  /** `activity{}`, Go's zero value. */
  const ZeroActivity: Activity :=
    Activity(ActivityUnsafe(ZeroTime, 0, 0, 0, "", 0, "", false, []), Running)

  const ErrDuration := "duration must be positive"
  const ErrDistance := "distance must be positive"
  const ErrVerticalGain := "verticalGain must be non-negative"

  /** The activity with a missing total duration replaced by the moving duration. */
  function Normalised(a: ActivityUnsafe): (n: ActivityUnsafe)
    ensures a.durationTotal <= 0 ==> n.durationTotal == a.duration
    ensures a.durationTotal > 0 ==> n == a
    ensures n.(durationTotal := a.durationTotal) == a
  {
    if a.durationTotal <= 0 then a.(durationTotal := a.duration) else a
  }

  /** `ActivityUnsafe.ToActivity`. The local copy is normalised first; a bad
      sport returns at once; the three numeric checks then each overwrite the
      error, so the last one that fails is the one reported. */
  method ToActivity(a: ActivityUnsafe) returns (act: Activity, err: Option<string>)
    ensures SportFromString(a.sport).err.Some? ==>
              act == ZeroActivity && err == SportFromString(a.sport).err
    ensures SportFromString(a.sport).err.None? ==>
              act == Activity(Normalised(a), SportFromString(a.sport).sport)
    ensures err.None? <==>
              SportFromString(a.sport).err.None?
              && a.duration > 0 && a.distance > 0 && a.verticalGain >= 0
    ensures SportFromString(a.sport).err.None? ==>
              err == if a.verticalGain < 0 then Some(ErrVerticalGain)
                     else if a.distance <= 0 then Some(ErrDistance)
                     else if a.duration <= 0 then Some(ErrDuration)
                     else None
  {
    var copy := a;
    if copy.durationTotal <= 0 {
      copy := copy.(durationTotal := copy.duration);
    }

    var parsed := SportFromString(copy.sport);
    err := parsed.err;
    if err.Some? {
      return ZeroActivity, err;
    }

    if copy.duration <= 0 {
      err := Some(ErrDuration);
    }
    if copy.distance <= 0 {
      err := Some(ErrDistance);
    }
    if copy.verticalGain < 0 {
      err := Some(ErrVerticalGain);
    }

    act := Activity(copy, parsed.sport);
  }
}

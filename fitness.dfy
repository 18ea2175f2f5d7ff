/** internal/fitness: the snapshot handed to every prompt, and the split of
    recent activities into this week, last week and older. */
module Fitness {
  import opened Wrappers
  import opened Time
  import opened Seqs
  import Db
  import Profile
  import Util

  datatype Fitness = Fitness(
    profile: Profile.Profile,
    activitiesThisWeek: seq<Db.ActivityUnsafe>,
    activitiesLastWeek: seq<Db.ActivityUnsafe>,
    activitiesOlder: seq<Db.ActivityUnsafe>,
    skeleton: Profile.Skeleton)

  datatype Period = ThisWeek | LastWeek | Older

  /** The `switch` of `Read`: strictly after the start of the week, else
      strictly after the start of last week (seven days earlier), else older. */
  function PeriodOf(t: Instant, startOfWeek: Instant): Period
  {
    if t > startOfWeek then ThisWeek
    else if t > AddDays(startOfWeek, -7) then LastWeek
    else Older
  }

  function InPeriodTest(startOfWeek: Instant, p: Period): Db.ActivityUnsafe -> bool
  {
    (a: Db.ActivityUnsafe) => PeriodOf(a.time, startOfWeek) == p
  }

  /** The activities of one period, in their input order. */
  function InPeriod(activities: seq<Db.ActivityUnsafe>, startOfWeek: Instant, p: Period): seq<Db.ActivityUnsafe>
  {
    Filter(activities, InPeriodTest(startOfWeek, p))
  }

  /** The loop of `Read` that appends each activity to one of three lists. */
  method Partition(activities: seq<Db.ActivityUnsafe>, startOfWeek: Instant)
    returns (thisWeek: seq<Db.ActivityUnsafe>, lastWeek: seq<Db.ActivityUnsafe>, older: seq<Db.ActivityUnsafe>)
    ensures thisWeek == InPeriod(activities, startOfWeek, ThisWeek)
    ensures lastWeek == InPeriod(activities, startOfWeek, LastWeek)
    ensures older == InPeriod(activities, startOfWeek, Older)
  {
    var startOfLastWeek := AddDays(startOfWeek, -7);
    thisWeek, lastWeek, older := [], [], [];
    for i := 0 to |activities|
      invariant thisWeek == InPeriod(activities[..i], startOfWeek, ThisWeek)
      invariant lastWeek == InPeriod(activities[..i], startOfWeek, LastWeek)
      invariant older == InPeriod(activities[..i], startOfWeek, Older)
    {
      var activity := activities[i];
      assert activities[..i + 1] == activities[..i] + [activity];
      FilterSnoc(activities[..i], activity, InPeriodTest(startOfWeek, ThisWeek));
      FilterSnoc(activities[..i], activity, InPeriodTest(startOfWeek, LastWeek));
      FilterSnoc(activities[..i], activity, InPeriodTest(startOfWeek, Older));
      if activity.time > startOfWeek {
        thisWeek := thisWeek + [activity];
      } else if activity.time > startOfLastWeek {
        lastWeek := lastWeek + [activity];
      } else {
        older := older + [activity];
      }
    }
    assert activities[..|activities|] == activities;
  }

  /** Every activity lands in exactly one of the three lists: together they
      are the input, counted with multiplicity. */
  lemma {:induction false} PartitionIsExact(activities: seq<Db.ActivityUnsafe>, startOfWeek: Instant)
    ensures multiset(InPeriod(activities, startOfWeek, ThisWeek))
            + multiset(InPeriod(activities, startOfWeek, LastWeek))
            + multiset(InPeriod(activities, startOfWeek, Older))
            == multiset(activities)
    ensures |InPeriod(activities, startOfWeek, ThisWeek)|
            + |InPeriod(activities, startOfWeek, LastWeek)|
            + |InPeriod(activities, startOfWeek, Older)|
            == |activities|
    decreases |activities|
  {
    if activities != [] {
      var init, last := activities[..|activities| - 1], activities[|activities| - 1];
      assert activities == init + [last];
      PartitionIsExact(init, startOfWeek);
      FilterSnoc(init, last, InPeriodTest(startOfWeek, ThisWeek));
      FilterSnoc(init, last, InPeriodTest(startOfWeek, LastWeek));
      FilterSnoc(init, last, InPeriodTest(startOfWeek, Older));
    }
  }

  /** What each list holds: this week is strictly after Monday 00:00 (an
      activity at exactly that instant is last week's), last week is the seven
      days before, older is the rest. Each keeps the input's order. */
  lemma PeriodContents(activities: seq<Db.ActivityUnsafe>, startOfWeek: Instant)
    ensures forall a :: a in InPeriod(activities, startOfWeek, ThisWeek) <==>
              a in activities && a.time > startOfWeek
    ensures forall a :: a in InPeriod(activities, startOfWeek, LastWeek) <==>
              a in activities && AddDays(startOfWeek, -7) < a.time <= startOfWeek
    ensures forall a :: a in InPeriod(activities, startOfWeek, Older) <==>
              a in activities && a.time <= AddDays(startOfWeek, -7)
    ensures forall p :: IsSubsequence(InPeriod(activities, startOfWeek, p), activities)
  {
    FilterMembers(activities, InPeriodTest(startOfWeek, ThisWeek));
    FilterMembers(activities, InPeriodTest(startOfWeek, LastWeek));
    FilterMembers(activities, InPeriodTest(startOfWeek, Older));
    forall p
      ensures IsSubsequence(InPeriod(activities, startOfWeek, p), activities)
    {
      FilterIsSubsequence(activities, InPeriodTest(startOfWeek, p));
    }
  }

  /** `Read` without its I/O: the profile, the clock reading and the last
      activities are given, and so is the outcome of reading the skeleton,
      whose failure falls back to an empty skeleton. */
  method Read(
    profileData: Profile.Profile,
    now: Instant,
    activities: seq<Db.ActivityUnsafe>,
    skeleton: Result<Profile.Skeleton, string>)
    returns (fitness: Fitness)
    ensures fitness.profile == profileData
    ensures fitness.activitiesThisWeek == InPeriod(activities, Util.BeginningOfWeek(now), ThisWeek)
    ensures fitness.activitiesLastWeek == InPeriod(activities, Util.BeginningOfWeek(now), LastWeek)
    ensures fitness.activitiesOlder == InPeriod(activities, Util.BeginningOfWeek(now), Older)
    ensures fitness.skeleton == if skeleton.Success? then skeleton.value else Profile.EmptySkeleton
  {
    var startOfWeek := Util.BeginningOfWeek(now);
    var thisWeek, lastWeek, older := Partition(activities, startOfWeek);

    var sk := if skeleton.Success? then skeleton.value else Profile.EmptySkeleton;

    fitness := Fitness(profileData, thisWeek, lastWeek, older, sk);
  }
}

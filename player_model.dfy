/**
 * The Player schema: a basketball-game card with its owner, ratings, badges
 * and attributes; its enums, ranges and defaults, and the validators that
 * `save()` and updates with `runValidators` apply.
 */
module PlayerModel {
  import opened Common
  import opened Text

  const Positions: seq<string> :=
    ["Point Guard", "Shooting Guard", "Small Forward", "Power Forward", "Center"]

  const BadgeLevels: seq<string> := ["Bronze", "Silver", "Gold", "Hall of Fame", "Legend"]

  const GameModes: seq<string> := ["REC", "Pro-Am", "Park", "MyCareer", "Play Now Online"]

  /** The numeric attributes, each in [0, 99] with default 0. */
  const StatNames: seq<string> := [
    "closeShot", "drivingLayup", "drivingDunk", "standingDunk", "postControl",
    "midRangeShot", "threePointShot", "freeThrow", "passingAccuracy", "ballHandle",
    "speedWithBall", "interiorDefense", "perimeterDefense", "steal", "block",
    "offensiveRebounding", "defensiveRebounding", "speed", "agility", "strength",
    "vertical", "stamina"]

  datatype Badge = Badge(name: Option<string>, level: string)

  /** A badge as the client sends it. */
  datatype BadgeInput = BadgeInput(name: Option<string>, level: Option<string>)

  /** The `attributes` sub-document: three required strings and the numeric ratings, in `StatNames` order. */
  datatype Attributes = Attributes(height: Option<string>, weight: Option<string>, wingspan: Option<string>, stats: seq<int>)

  /** An `attributes` object as the client sends it; `stats` holds the numeric keys it carries. */
  datatype AttributesInput = AttributesInput(height: Option<string>, weight: Option<string>, wingspan: Option<string>, stats: map<string, int>)

  datatype Player = Player(
    owner: Id,
    name: string,
    position: string,
    rating: int,
    badges: seq<Badge>,
    console: string,
    timezone: string,
    joinDate: Time,
    gamesPlayed: int,
    winRate: int,
    preferredModes: seq<string>,
    photo: string,
    screenshot: string,
    attributes: Attributes,
    bio: string,
    isAvailable: bool,
    price: string,
    currency: string)

  /** Casting a badge: `level` defaults to Bronze. */
  function CastBadge(b: BadgeInput): (r: Badge)
    ensures r.name == b.name
    ensures b.level.None? ==> r.level == "Bronze"
  {
    Badge(b.name, if b.level.Some? then b.level.value else "Bronze")
  }

  function CastBadges(bs: seq<BadgeInput>): (r: seq<Badge>)
    ensures |r| == |bs| && forall k :: 0 <= k < |bs| ==> r[k] == CastBadge(bs[k])
  {
    seq(|bs|, k requires 0 <= k < |bs| => CastBadge(bs[k]))
  }

  /** Casting `attributes`: a numeric attribute the client leaves out is 0; unknown keys are dropped. */
  function CastAttributes(a: AttributesInput): (r: Attributes)
    ensures |r.stats| == |StatNames|
    ensures forall k :: 0 <= k < |StatNames| && StatNames[k] !in a.stats ==> r.stats[k] == 0
  {
    Attributes(a.height, a.weight, a.wingspan,
      seq(|StatNames|, k requires 0 <= k < |StatNames| =>
        if StatNames[k] in a.stats then a.stats[StatNames[k]] else 0))
  }

  /** The `attributes` object a player gets when the client sends none. */
  const NoAttributes := AttributesInput(None, None, None, map[])

  predicate ValidBadge(b: Badge)
  {
    Truthy(b.name) && b.level in BadgeLevels
  }

  predicate ValidAttributes(a: Attributes)
  {
    && Truthy(a.height) && Truthy(a.weight) && Truthy(a.wingspan)
    && |a.stats| == |StatNames|
    && forall k :: 0 <= k < |a.stats| ==> 0 <= a.stats[k] <= 99
  }

  /** The schema validators. `name` is stored trimmed, so its length is the trimmed length. */
  predicate ValidPlayer(p: Player)
  {
    && 1 <= |p.name| <= 50
    && p.position in Positions
    && 60 <= p.rating <= 99
    && (forall k :: 0 <= k < |p.badges| ==> ValidBadge(p.badges[k]))
    && p.console in Consoles
    && p.timezone in Timezones
    && p.gamesPlayed >= 0
    && 0 <= p.winRate <= 100
    && (forall k :: 0 <= k < |p.preferredModes| ==> p.preferredModes[k] in GameModes)
    && ValidAttributes(p.attributes)
    && |p.bio| <= 1000
  }

  /** A badge passes validation exactly when it has a name and its level, if given, is one of the five. */
  lemma CastBadgeValidIff(b: BadgeInput)
    ensures ValidBadge(CastBadge(b)) <==> Truthy(b.name) && (b.level.None? || b.level.value in BadgeLevels)
  {
    assert "Bronze" in BadgeLevels;
  }

  /**
   * Cast attributes pass validation exactly when the three size strings are
   * present and every numeric attribute the client sent is in [0, 99]: the
   * default 0 is always in range and unknown keys play no part.
   */
  lemma CastAttributesValidIff(a: AttributesInput)
    ensures ValidAttributes(CastAttributes(a)) <==>
            Truthy(a.height) && Truthy(a.weight) && Truthy(a.wingspan)
            && forall k :: 0 <= k < |StatNames| && StatNames[k] in a.stats ==> 0 <= a.stats[StatNames[k]] <= 99
  {
    var r := CastAttributes(a);
    if forall k :: 0 <= k < |StatNames| && StatNames[k] in a.stats ==> 0 <= a.stats[StatNames[k]] <= 99 {
      forall k | 0 <= k < |r.stats|
        ensures 0 <= r.stats[k] <= 99
      {
        if StatNames[k] in a.stats {
          assert r.stats[k] == a.stats[StatNames[k]];
        }
      }
    }
    if ValidAttributes(r) {
      forall k | 0 <= k < |StatNames| && StatNames[k] in a.stats
        ensures 0 <= a.stats[StatNames[k]] <= 99
      {
        assert r.stats[k] == a.stats[StatNames[k]];
      }
    }
  }
}

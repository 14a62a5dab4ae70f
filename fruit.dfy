/**
 * The fruit lifecycle: a fruit is active (visible, collectable) or inactive.
 * The avatar touching an active fruit makes it inactive, awards the energy
 * bonus through the fruit's callback, and schedules one respawn 30 seconds
 * later, in place. The scheduled task is an explicit deadline on a clock that
 * the frame driver advances.
 */
module FruitModel {

  const RespawnSeconds: real := 30.0
  const EnergyBonus: int := 10
  const AvatarTag: string := "avatar"

  datatype Option<T> = None | Some(value: T)

  /** The fruit's state as a value: whether it is active, its clock, and the pending respawn's deadline. */
  datatype FruitState = FruitState(active: bool, clock: real, respawnAt: Option<real>)

  /** What happens to a fruit: a contact with an object carrying a tag, or time passing. */
  datatype Event = Contact(tag: string) | Elapse(dt: real)

  /**
   * The lifecycle invariant: an active fruit has nothing pending; an inactive
   * one has exactly one respawn pending, due within the next 30 seconds.
   */
  predicate Consistent(s: FruitState)
  {
    if s.active then s.respawnAt == None
    else s.respawnAt.Some? && s.clock < s.respawnAt.value <= s.clock + RespawnSeconds
  }

  /** onCollisionEnter: the bonus values passed to the callback are returned beside the new state. */
  function Collide(s: FruitState, tag: string): (r: (FruitState, seq<int>))
    ensures !s.active || tag != AvatarTag ==> r == (s, [])
    ensures s.active && tag == AvatarTag ==>
      r == (FruitState(false, s.clock, Some(s.clock + RespawnSeconds)), [EnergyBonus])
    ensures Consistent(s) ==> Consistent(r.0)
  {
    if !s.active || tag != AvatarTag then (s, [])
    else (s.(active := false, respawnAt := Some(s.clock + RespawnSeconds)), [EnergyBonus])
  }

  /** Time passes; a respawn whose deadline has been reached runs, once. */
  function Advance(s: FruitState, dt: real): (r: FruitState)
    requires dt >= 0.0
    ensures r.clock == s.clock + dt
    ensures s.respawnAt.Some? && s.clock + dt >= s.respawnAt.value ==> r.active && r.respawnAt == None
    ensures r.active && !s.active ==> s.respawnAt.Some? && s.clock + dt >= s.respawnAt.value
    ensures s.active ==> r.active
    ensures !(s.respawnAt.Some? && s.clock + dt >= s.respawnAt.value) ==> r == s.(clock := s.clock + dt)
    ensures Consistent(s) ==> Consistent(r)
  {
    var later := s.(clock := s.clock + dt);
    if later.respawnAt.Some? && later.clock >= later.respawnAt.value
    then later.(active := true, respawnAt := None)
    else later
  }

  function Step(s: FruitState, e: Event): (r: (FruitState, seq<int>))
    requires e.Elapse? ==> e.dt >= 0.0
  {
    match e
    case Contact(tag) => Collide(s, tag)
    case Elapse(dt) => (Advance(s, dt), [])
  }

  predicate NonNegativeTimes(es: seq<Event>)
  {
    forall i :: 0 <= i < |es| ==> es[i].Elapse? ==> es[i].dt >= 0.0
  }

  /** The bonus values awarded along a sequence of events. */
  function Awards(s: FruitState, es: seq<Event>): seq<int>
    requires NonNegativeTimes(es)
    decreases |es|
  {
    if es == [] then []
    else
      var r := Step(s, es[0]);
      r.1 + Awards(r.0, es[1..])
  }

  /** Total time passed along a sequence of events. */
  function Elapsed(es: seq<Event>): real
    decreases |es|
  {
    if es == [] then 0.0 else (if es[0].Elapse? then es[0].dt else 0.0) + Elapsed(es[1..])
  }

  /**
   * Seconds of collection allowance the fruit holds: a full RespawnSeconds when
   * active, otherwise the time already served towards the pending respawn.
   */
  function Allowance(s: FruitState): real
    requires Consistent(s)
  {
    if s.active then RespawnSeconds else s.clock - (s.respawnAt.value - RespawnSeconds)
  }

  /**
   * Collections are spaced by the respawn delay: over any sequence of events,
   * RespawnSeconds times the number of awards is at most the fruit's allowance
   * plus the time that passed.
   */
  lemma {:induction false} AwardsSpacedByRespawn(s: FruitState, es: seq<Event>)
    requires Consistent(s) && NonNegativeTimes(es)
    ensures (|Awards(s, es)| as real) * RespawnSeconds <= Allowance(s) + Elapsed(es)
    decreases |es|
  {
    if es != [] {
      var r := Step(s, es[0]);
      assert NonNegativeTimes(es[1..]) by {
        forall i | 0 <= i < |es[1..]| ensures es[1..][i].Elapse? ==> es[1..][i].dt >= 0.0 {
          assert es[1..][i] == es[i + 1];
        }
      }
      AwardsSpacedByRespawn(r.0, es[1..]);
      assert Awards(s, es) == r.1 + Awards(r.0, es[1..]);
    }
  }

  predicate NonNegativeSteps(dts: seq<real>)
  {
    forall i :: 0 <= i < |dts| ==> dts[i] >= 0.0
  }

  /** Total time of a sequence of clock advances. */
  function Duration(dts: seq<real>): real
    decreases |dts|
  {
    if dts == [] then 0.0 else dts[0] + Duration(dts[1..])
  }

  /** The state after the clock advances by each of dts in turn. */
  function AdvanceAll(s: FruitState, dts: seq<real>): FruitState
    requires NonNegativeSteps(dts)
    decreases |dts|
  {
    if dts == [] then s
    else
      assert NonNegativeSteps(dts[1..]) by {
        forall i | 0 <= i < |dts[1..]| ensures dts[1..][i] >= 0.0 {
          assert dts[1..][i] == dts[i + 1];
        }
      }
      AdvanceAll(Advance(s, dts[0]), dts[1..])
  }

  lemma {:induction false} DurationNonNegative(dts: seq<real>)
    requires NonNegativeSteps(dts)
    ensures Duration(dts) >= 0.0
    decreases |dts|
  {
    if dts != [] {
      assert NonNegativeSteps(dts[1..]) by {
        forall i | 0 <= i < |dts[1..]| ensures dts[1..][i] >= 0.0 {
          assert dts[1..][i] == dts[i + 1];
        }
      }
      DurationNonNegative(dts[1..]);
    }
  }

  /** An active fruit with nothing pending stays so: time passing only moves its clock. */
  lemma {:induction false} ActiveStaysActive(s: FruitState, dts: seq<real>)
    requires s.active && s.respawnAt == None && NonNegativeSteps(dts)
    ensures AdvanceAll(s, dts) == s.(clock := s.clock + Duration(dts))
    decreases |dts|
  {
    if dts != [] {
      assert NonNegativeSteps(dts[1..]) by {
        forall i | 0 <= i < |dts[1..]| ensures dts[1..][i] >= 0.0 {
          assert dts[1..][i] == dts[i + 1];
        }
      }
      ActiveStaysActive(Advance(s, dts[0]), dts[1..]);
    }
  }

  /**
   * A pending respawn runs exactly when the clock first reaches its deadline:
   * before that only the clock moves; from then on the fruit is active with
   * nothing pending.
   */
  lemma {:induction false} PendingRespawnRuns(s: FruitState, dts: seq<real>)
    requires Consistent(s) && !s.active && NonNegativeSteps(dts)
    ensures s.clock + Duration(dts) < s.respawnAt.value ==> AdvanceAll(s, dts) == s.(clock := s.clock + Duration(dts))
    ensures s.clock + Duration(dts) >= s.respawnAt.value ==> AdvanceAll(s, dts).active && AdvanceAll(s, dts).respawnAt == None
    decreases |dts|
  {
    if dts != [] {
      var rest := dts[1..];
      assert NonNegativeSteps(rest) by {
        forall i | 0 <= i < |rest| ensures rest[i] >= 0.0 {
          assert rest[i] == dts[i + 1];
        }
      }
      var next := Advance(s, dts[0]);
      assert Duration(dts) == dts[0] + Duration(rest);
      if s.clock + dts[0] >= s.respawnAt.value {
        ActiveStaysActive(next, rest);
        DurationNonNegative(rest);
      } else {
        PendingRespawnRuns(next, rest);
      }
    }
  }

  /**
   * After an active fruit is collected, it stays inactive through every clock
   * advance that ends less than RespawnSeconds after the collection, and is
   * active again once RespawnSeconds have passed: it comes back 30 seconds
   * later, neither earlier nor later.
   */
  lemma BackAfterRespawnSeconds(s: FruitState, dts: seq<real>)
    requires Consistent(s) && s.active && NonNegativeSteps(dts)
    ensures var collected := Collide(s, AvatarTag).0;
      && (Duration(dts) < RespawnSeconds ==> !AdvanceAll(collected, dts).active)
      && (Duration(dts) >= RespawnSeconds ==> AdvanceAll(collected, dts).active)
  {
    PendingRespawnRuns(Collide(s, AvatarTag).0, dts);
  }

  class Fruit {
    /** The top-left corner; the fruit never moves. */
    const x: real
    const y: real
    var active: bool
    var opacity: real
    var clock: real
    var respawnAt: Option<real>
    /** Every value passed to the collection callback so far, in order. */
    var awards: seq<int>

    ghost predicate Valid()
      reads this
    {
      Consistent(State()) && opacity == (if active then 1.0 else 0.0)
    }

    function State(): FruitState
      reads this
    {
      FruitState(active, clock, respawnAt)
    }

    /** A new fruit is active and fully visible, with nothing pending. */
    constructor (x: real, y: real)
      ensures Valid()
      ensures this.x == x && this.y == y
      ensures active && opacity == 1.0 && clock == 0.0 && respawnAt == None && awards == []
    {
      this.x := x;
      this.y := y;
      active := true;
      opacity := 1.0;
      clock := 0.0;
      respawnAt := None;
      awards := [];
    }

    /**
     * Contact with another object: only an active fruit touched by the avatar
     * reacts, by hiding, awarding the bonus once and scheduling one respawn.
     */
    method OnCollisionEnter(otherTag: string)
      requires Valid()
      modifies this
      ensures Valid()
      ensures State() == Collide(old(State()), otherTag).0
      ensures awards == old(awards) + Collide(old(State()), otherTag).1
    {
      if !active {
        return;
      }
      if otherTag != AvatarTag {
        return;
      }
      active := false;
      opacity := 0.0;
      awards := awards + [EnergyBonus];
      respawnAt := Some(clock + RespawnSeconds);
    }

    /** The scheduled respawn: active and visible again, in the same place. */
    method Respawn()
      modifies this`active, this`opacity
      ensures active && opacity == 1.0
    {
      active := true;
      opacity := 1.0;
    }

    /** The frame driver advances the fruit's clock; a due respawn runs once. */
    method Elapse(dt: real)
      requires Valid() && dt >= 0.0
      modifies this
      ensures Valid()
      ensures State() == Advance(old(State()), dt)
      ensures awards == old(awards)
    {
      clock := clock + dt;
      if respawnAt.Some? && clock >= respawnAt.value {
        respawnAt := None;
        Respawn();
      }
    }
  }
}

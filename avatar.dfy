/**
 * The avatar: a three-state motion machine (Idle, Run, Jump) driven once per
 * frame, with an energy resource clamped to [0, 100] whose every actual change
 * is broadcast to the registered listeners.
 *
 * The first half is a value-level specification (Motion, Tick and friends);
 * the Avatar class below updates its fields in place and is proved to follow it.
 */
module AvatarModel {
  import opened Seqs

  const AvatarSize: int := 50
  const VelocityX: int := 400
  const JumpVelocityY: int := -650
  const MaxEnergy: int := 100
  const MinEnergy: int := 0
  const IdleGainPerUpdate: int := 1
  const RunCostPerUpdate: int := 2
  const RunThreshold: int := 2
  const JumpCost: int := 20
  const DoubleJumpCost: int := 50
  const BlockTag: string := "block"

  /** Which state object is current. */
  datatype Kind = Idle | Run | Jump

  /** Keys held during a frame. */
  datatype Keys = Keys(left: bool, right: bool, space: bool)

  /**
   * What one frame hands to the update: the held keys, and the vertical
   * velocity the engine's physics step (gravity, then the base update) left.
   */
  datatype Frame = Frame(keys: Keys, vy: int)

  /** The avatar's state as a value. */
  datatype Motion = Motion(
    energy: int,
    doubleJumpUsed: bool,
    spacePressedLastUpdate: bool,
    kind: Kind,
    vx: int,
    vy: int)

  /** A state after a step, and the energy values broadcast on the way, in order. */
  datatype Outcome = Outcome(m: Motion, notes: seq<int>)

  predicate EnergyInRange(e: int)
  {
    MinEnergy <= e <= MaxEnergy
  }

  /** The clamp applied by every energy change. */
  function Clamp(e: int): (r: int)
    ensures EnergyInRange(r)
    ensures EnergyInRange(e) ==> r == e
    ensures e < MinEnergy ==> r == MinEnergy
    ensures e > MaxEnergy ==> r == MaxEnergy
  {
    if e < MinEnergy then MinEnergy else if e > MaxEnergy then MaxEnergy else e
  }

  /**
   * notes is an honest change log from e0 to e1: each value differs from the
   * one before it (starting from e0), and the last one is e1; no notes means
   * no change.
   */
  predicate Changes(e0: int, notes: seq<int>, e1: int)
    decreases |notes|
  {
    if notes == [] then e0 == e1 else notes[0] != e0 && Changes(notes[0], notes[1..], e1)
  }

  lemma {:induction false} ChangesConcat(e0: int, a: seq<int>, e1: int, b: seq<int>, e2: int)
    requires Changes(e0, a, e1) && Changes(e1, b, e2)
    ensures Changes(e0, a + b, e2)
    decreases |a|
  {
    if a == [] {
      assert a + b == b;
    } else {
      ChangesConcat(a[0], a[1..], e1, b, e2);
      assert (a + b)[1..] == a[1..] + b;
    }
  }

  /** setEnergy: the new value is the clamped request; exactly one note iff it differs from the old value. */
  function SetEnergyStep(e: int, request: int): (r: (int, seq<int>))
    ensures r.0 == Clamp(request)
    ensures |r.1| <= 1
    ensures Changes(e, r.1, r.0)
  {
    var clamped := Clamp(request);
    if clamped != e then (clamped, [clamped]) else (e, [])
  }

  function Direction(keys: Keys): (dx: int)
    ensures dx == (if keys.left == keys.right then 0 else if keys.left then -VelocityX else VelocityX)
  {
    (if keys.left then -VelocityX else 0) + (if keys.right then VelocityX else 0)
  }

  /** Edge-triggered jump input: pressed this frame and not in the previous one. */
  predicate SpaceJustPressed(keys: Keys, m: Motion)
  {
    keys.space && !m.spacePressedLastUpdate
  }

  /** The transition choice: Jump when not on ground, Run for exactly one arrow and enough energy, else Idle. */
  function ChooseNextState(vy: int, keys: Keys, energy: int): (k: Kind)
    ensures k == Jump <==> vy != 0
    ensures k == Run <==> vy == 0 && keys.left != keys.right && energy >= RunThreshold
  {
    if vy != 0 then Jump
    else if keys.left != keys.right && energy >= RunThreshold then Run
    else Idle
  }

  /** The regular jump shared by Idle and Run: on ground, space just pressed, energy at least JumpCost. */
  function GroundJumpStep(m: Motion, keys: Keys): (r: Outcome)
    requires EnergyInRange(m.energy)
    ensures var fires := m.vy == 0 && SpaceJustPressed(keys, m) && m.energy >= JumpCost;
      && (fires ==> r.m == m.(energy := m.energy - JumpCost, vy := JumpVelocityY) && r.notes == [r.m.energy])
      && (!fires ==> r.m == m && r.notes == [])
    ensures Changes(m.energy, r.notes, r.m.energy)
  {
    if m.vy == 0 && SpaceJustPressed(keys, m) && m.energy >= JumpCost then
      var spent := SetEnergyStep(m.energy, m.energy - JumpCost);
      Outcome(m.(energy := spent.0, vy := JumpVelocityY), spent.1)
    else
      Outcome(m, [])
  }

  /** IdleState.update. */
  function IdleStep(m: Motion, keys: Keys): (r: Outcome)
    requires EnergyInRange(m.energy)
    ensures r.m.vx == 0
    ensures r.m.kind == m.kind && r.m.doubleJumpUsed == m.doubleJumpUsed
    ensures r.m.spacePressedLastUpdate == m.spacePressedLastUpdate
    ensures m.vy != 0 ==> r.m.energy == m.energy && r.m.vy == m.vy && r.notes == []
    ensures m.vy == 0 ==>
      var gained := Clamp(m.energy + IdleGainPerUpdate);
      if SpaceJustPressed(keys, m) && gained >= JumpCost
      then r.m.energy == gained - JumpCost && r.m.vy == JumpVelocityY
      else r.m.energy == gained && r.m.vy == 0
    ensures EnergyInRange(r.m.energy)
    ensures Changes(m.energy, r.notes, r.m.energy)
  {
    var still := m.(vx := 0);
    var gain := if still.vy == 0 then SetEnergyStep(still.energy, still.energy + IdleGainPerUpdate)
                else (still.energy, []);
    var jump := GroundJumpStep(still.(energy := gain.0), keys);
    ChangesConcat(m.energy, gain.1, gain.0, jump.notes, jump.m.energy);
    Outcome(jump.m, gain.1 + jump.notes)
  }

  /** RunState.update, horizontal part: paid on ground, free in the air, refused below the run cost. */
  function RunMoveStep(m: Motion, keys: Keys): (r: Outcome)
    requires EnergyInRange(m.energy)
    ensures var dx := Direction(keys);
      && (dx == 0 ==> r.m == m.(vx := 0) && r.notes == [])
      && (dx != 0 && m.vy == 0 && m.energy >= RunCostPerUpdate ==>
            r.m == m.(vx := dx, energy := m.energy - RunCostPerUpdate))
      && (dx != 0 && m.vy == 0 && m.energy < RunCostPerUpdate ==> r.m == m.(vx := 0) && r.notes == [])
      && (dx != 0 && m.vy != 0 ==> r.m == m.(vx := dx) && r.notes == [])
    ensures Changes(m.energy, r.notes, r.m.energy)
  {
    var dx := Direction(keys);
    if dx == 0 then Outcome(m.(vx := 0), [])
    else if m.vy == 0 then
      if m.energy >= RunCostPerUpdate then
        var spent := SetEnergyStep(m.energy, m.energy - RunCostPerUpdate);
        Outcome(m.(vx := dx, energy := spent.0), spent.1)
      else Outcome(m.(vx := 0), [])
    else Outcome(m.(vx := dx), [])
  }

  /** RunState.update: the horizontal move, then the same regular jump as Idle. */
  function RunStep(m: Motion, keys: Keys): (r: Outcome)
    requires EnergyInRange(m.energy)
    ensures r.m.kind == m.kind && r.m.doubleJumpUsed == m.doubleJumpUsed
    ensures r.m.spacePressedLastUpdate == m.spacePressedLastUpdate
    ensures r.m.vx == RunMoveStep(m, keys).m.vx
    ensures m.vy != 0 ==> r.m.vy == m.vy && r.m.energy == m.energy
    ensures m.vy == 0 ==>
      var moved := RunMoveStep(m, keys).m.energy;
      if SpaceJustPressed(keys, m) && moved >= JumpCost
      then r.m.energy == moved - JumpCost && r.m.vy == JumpVelocityY
      else r.m.energy == moved && r.m.vy == 0
    ensures EnergyInRange(r.m.energy)
    ensures Changes(m.energy, r.notes, r.m.energy)
  {
    var move := RunMoveStep(m, keys);
    var jump := GroundJumpStep(move.m, keys);
    ChangesConcat(m.energy, move.notes, move.m.energy, jump.notes, jump.m.energy);
    Outcome(jump.m, move.notes + jump.notes)
  }

  /** The double jump: airborne and falling, not yet used, space just pressed, energy at least DoubleJumpCost. */
  predicate DoubleJumpFires(m: Motion, keys: Keys)
  {
    m.vy != 0 && m.vy > 0 && !m.doubleJumpUsed && SpaceJustPressed(keys, m) && m.energy >= DoubleJumpCost
  }

  /** JumpState.update: free horizontal control from the keys, and at most the one double jump. */
  function JumpStep(m: Motion, keys: Keys): (r: Outcome)
    requires EnergyInRange(m.energy)
    ensures r.m.vx == Direction(keys)
    ensures DoubleJumpFires(m, keys) ==>
      r.m == m.(vx := Direction(keys), energy := m.energy - DoubleJumpCost,
                doubleJumpUsed := true, vy := JumpVelocityY)
    ensures !DoubleJumpFires(m, keys) ==> r.m == m.(vx := Direction(keys)) && r.notes == []
    ensures EnergyInRange(r.m.energy)
    ensures Changes(m.energy, r.notes, r.m.energy)
  {
    var moving := m.(vx := Direction(keys));
    if DoubleJumpFires(m, keys) then
      var spent := SetEnergyStep(moving.energy, moving.energy - DoubleJumpCost);
      Outcome(moving.(energy := spent.0, doubleJumpUsed := true, vy := JumpVelocityY), spent.1)
    else
      Outcome(moving, [])
  }

  /**
   * Avatar.update for one frame: take the engine's vertical velocity, clear the
   * double-jump flag on ground, switch to the chosen state, run it, and
   * remember the space key.
   */
  function Tick(m: Motion, frame: Frame): (r: Outcome)
    requires EnergyInRange(m.energy)
    ensures EnergyInRange(r.m.energy)
    ensures r.m.kind == ChooseNextState(frame.vy, frame.keys, m.energy)
    ensures r.m.spacePressedLastUpdate == frame.keys.space
    ensures frame.vy == 0 ==> !r.m.doubleJumpUsed
    ensures m.doubleJumpUsed && frame.vy != 0 ==> r.m.doubleJumpUsed && r.m.vy == frame.vy
    ensures !m.doubleJumpUsed && r.m.doubleJumpUsed ==>
      frame.vy > 0 && r.m.energy == m.energy - DoubleJumpCost && r.m.vy == JumpVelocityY
    ensures Changes(m.energy, r.notes, r.m.energy)
  {
    var ran := StateStep(BeginFrame(m, frame), frame.keys);
    Outcome(ran.m.(spacePressedLastUpdate := frame.keys.space), ran.notes)
  }

  /** The part of Avatar.update before the state's own update: physics, landing, and the state switch. */
  function BeginFrame(m: Motion, frame: Frame): (r: Motion)
    ensures r.vy == frame.vy
    ensures r.doubleJumpUsed <==> m.doubleJumpUsed && frame.vy != 0
    ensures r.kind == ChooseNextState(frame.vy, frame.keys, m.energy)
    ensures r.energy == m.energy && r.vx == m.vx && r.spacePressedLastUpdate == m.spacePressedLastUpdate
  {
    var physics := m.(vy := frame.vy);
    var landed := if physics.vy == 0 then physics.(doubleJumpUsed := false) else physics;
    landed.(kind := ChooseNextState(landed.vy, frame.keys, landed.energy))
  }

  /**
   * currentState.update: the step of whichever state is current. No state
   * update switches the state or touches the remembered space key, and every
   * one keeps energy in range with an honest change log.
   */
  function StateStep(m: Motion, keys: Keys): (r: Outcome)
    requires EnergyInRange(m.energy)
    ensures r.m.kind == m.kind && r.m.spacePressedLastUpdate == m.spacePressedLastUpdate
    ensures m.kind == Jump ==> r.m.vx == Direction(keys)
    ensures m.kind == Idle ==> r.m.vx == 0
    ensures m.kind != Jump ==> r.m.doubleJumpUsed == m.doubleJumpUsed
    ensures EnergyInRange(r.m.energy)
    ensures Changes(m.energy, r.notes, r.m.energy)
  {
    match m.kind
    case Idle => IdleStep(m, keys)
    case Run => RunStep(m, keys)
    case Jump => JumpStep(m, keys)
  }

  /**
   * The space key is edge-triggered: after a frame with space held, a next
   * frame with space still held does not count as a new press.
   */
  lemma HeldSpaceIsNotPressedAgain(m: Motion, first: Frame, second: Keys)
    requires EnergyInRange(m.energy)
    requires first.keys.space && second.space
    ensures !SpaceJustPressed(second, Tick(m, first).m)
  {
  }

  /** The state after a whole sequence of frames. */
  function Simulate(m: Motion, frames: seq<Frame>): (r: Motion)
    requires EnergyInRange(m.energy)
    ensures EnergyInRange(r.energy)
    decreases |frames|
  {
    if frames == [] then m else Simulate(Tick(m, frames[0]).m, frames[1..])
  }

  /** How many double jumps fire over a sequence of frames. */
  function DoubleJumps(m: Motion, frames: seq<Frame>): nat
    requires EnergyInRange(m.energy)
    decreases |frames|
  {
    if frames == [] then 0
    else
      var next := Tick(m, frames[0]).m;
      (if !m.doubleJumpUsed && next.doubleJumpUsed then 1 else 0) + DoubleJumps(next, frames[1..])
  }

  /** While the avatar stays airborne (vertical velocity never zero), at most one double jump fires. */
  lemma {:induction false} AtMostOneDoubleJumpPerFlight(m: Motion, frames: seq<Frame>)
    requires EnergyInRange(m.energy)
    requires forall i :: 0 <= i < |frames| ==> frames[i].vy != 0
    ensures DoubleJumps(m, frames) <= if m.doubleJumpUsed then 0 else 1
    decreases |frames|
  {
    if frames != [] {
      var next := Tick(m, frames[0]).m;
      AtMostOneDoubleJumpPerFlight(next, frames[1..]);
    }
  }

  /** Listener callbacks are outside the model; a listener is known by an identity. */
  type Listener = nat

  /** One invocation of a listener with an energy value. */
  datatype Call = Call(listener: Listener, value: int)

  /** notifyEnergyChanged: every listener, in registration order, receives the value once. */
  function Fanout(listeners: seq<Listener>, value: int): (calls: seq<Call>)
    ensures |calls| == |listeners|
    ensures forall i :: 0 <= i < |listeners| ==> calls[i] == Call(listeners[i], value)
  {
    seq(|listeners|, i requires 0 <= i < |listeners| => Call(listeners[i], value))
  }

  /** The listener calls for a sequence of broadcast values. */
  function Broadcast(listeners: seq<Listener>, values: seq<int>): seq<Call>
    decreases |values|
  {
    if values == [] then [] else Fanout(listeners, values[0]) + Broadcast(listeners, values[1..])
  }

  lemma {:induction false} BroadcastConcat(listeners: seq<Listener>, a: seq<int>, b: seq<int>)
    ensures Broadcast(listeners, a + b) == Broadcast(listeners, a) + Broadcast(listeners, b)
    decreases |a|
  {
    if a == [] {
      assert a + b == b;
    } else {
      assert (a + b)[1..] == a[1..] + b;
      BroadcastConcat(listeners, a[1..], b);
    }
  }

  /** Two broadcasts logged one after the other are the broadcast of the joined values. */
  lemma AppendBroadcasts(log: seq<Call>, listeners: seq<Listener>, a: seq<int>, b: seq<int>)
    ensures (log + Broadcast(listeners, a)) + Broadcast(listeners, b) == log + Broadcast(listeners, a + b)
  {
    BroadcastConcat(listeners, a, b);
    ConcatAssociative(log, Broadcast(listeners, a), Broadcast(listeners, b));
  }

  /** The colliding object, as the avatar sees it: its tag and the y of its top edge. */
  datatype Collider = Collider(tag: string, top: real)

  class Avatar {
    var energy: int
    var doubleJumpUsed: bool
    var spacePressedLastUpdate: bool
    var kind: Kind
    var vx: int
    var vy: int
    /** y of the top-left corner. */
    var top: real
    var energyListeners: seq<Listener>
    /** Every listener invocation made so far, in order. */
    var calls: seq<Call>

    ghost predicate Valid()
      reads this
    {
      EnergyInRange(energy)
    }

    function State(): Motion
      reads this
    {
      Motion(energy, doubleJumpUsed, spacePressedLastUpdate, kind, vx, vy)
    }

    /** A new avatar: full energy, Idle, both flags clear, no listeners. */
    constructor (top: real)
      ensures Valid()
      ensures State() == Motion(MaxEnergy, false, false, Idle, 0, 0)
      ensures this.top == top && energyListeners == [] && calls == []
    {
      energy := MaxEnergy;
      doubleJumpUsed := false;
      spacePressedLastUpdate := false;
      kind := Idle;
      vx, vy := 0, 0;
      this.top := top;
      energyListeners := [];
      calls := [];
    }

    method NotifyEnergyChanged()
      modifies this`calls
      ensures calls == old(calls) + Fanout(energyListeners, energy)
    {
      var i := 0;
      while i < |energyListeners|
        invariant 0 <= i <= |energyListeners|
        invariant calls == old(calls) + Fanout(energyListeners, energy)[..i]
      {
        calls := calls + [Call(energyListeners[i], energy)];
        i := i + 1;
      }
    }

    method SetEnergy(newEnergy: int)
      modifies this`energy, this`calls
      ensures energy == SetEnergyStep(old(energy), newEnergy).0
      ensures calls == old(calls) + Broadcast(energyListeners, SetEnergyStep(old(energy), newEnergy).1)
    {
      var clamped := Clamp(newEnergy);
      if clamped != energy {
        energy := clamped;
        NotifyEnergyChanged();
      }
    }

    method SpendEnergy(amount: int)
      modifies this`energy, this`calls
      ensures energy == SetEnergyStep(old(energy), old(energy) - amount).0
      ensures calls == old(calls) + Broadcast(energyListeners, SetEnergyStep(old(energy), old(energy) - amount).1)
    {
      SetEnergy(energy - amount);
    }

    method AddEnergy(amount: int)
      modifies this`energy, this`calls
      ensures energy == SetEnergyStep(old(energy), old(energy) + amount).0
      ensures calls == old(calls) + Broadcast(energyListeners, SetEnergyStep(old(energy), old(energy) + amount).1)
    {
      SetEnergy(energy + amount);
    }

    /** The entry point other components (fruit collection) use to add energy. */
    method IncreaseEnergy(amount: int)
      requires Valid()
      modifies this`energy, this`calls
      ensures Valid()
      ensures energy == Clamp(old(energy) + amount)
      ensures calls == old(calls) + Broadcast(energyListeners, SetEnergyStep(old(energy), old(energy) + amount).1)
    {
      AddEnergy(amount);
    }

    /** Appends the listener and replays the current energy to it once. */
    method AddEnergyChangedListener(listener: Listener)
      modifies this`energyListeners, this`calls
      ensures energyListeners == old(energyListeners) + [listener]
      ensures calls == old(calls) + [Call(listener, energy)]
    {
      energyListeners := energyListeners + [listener];
      calls := calls + [Call(listener, energy)];
    }

    method GroundJump(keys: Keys)
      requires Valid()
      modifies this`energy, this`calls, this`vy
      ensures State() == GroundJumpStep(old(State()), keys).m
      ensures calls == old(calls) + Broadcast(energyListeners, GroundJumpStep(old(State()), keys).notes)
    {
      if vy == 0 && keys.space && !spacePressedLastUpdate && energy >= JumpCost {
        SpendEnergy(JumpCost);
        vy := JumpVelocityY;
      }
    }

    method IdleUpdate(keys: Keys)
      requires Valid()
      modifies this`energy, this`calls, this`vx, this`vy
      ensures State() == IdleStep(old(State()), keys).m
      ensures calls == old(calls) + Broadcast(energyListeners, IdleStep(old(State()), keys).notes)
    {
      ghost var m0 := State();
      ghost var gain := if m0.vy == 0 then SetEnergyStep(m0.energy, m0.energy + IdleGainPerUpdate)
                        else (m0.energy, []);
      vx := 0;
      if vy == 0 {
        AddEnergy(IdleGainPerUpdate);
      }
      assert State() == m0.(vx := 0, energy := gain.0);
      assert calls == old(calls) + Broadcast(energyListeners, gain.1);
      ghost var jump := GroundJumpStep(State(), keys);
      GroundJump(keys);
      AppendBroadcasts(old(calls), energyListeners, gain.1, jump.notes);
      assert IdleStep(m0, keys) == Outcome(jump.m, gain.1 + jump.notes);
    }

    method RunUpdate(keys: Keys)
      requires Valid()
      modifies this`energy, this`calls, this`vx, this`vy
      ensures State() == RunStep(old(State()), keys).m
      ensures calls == old(calls) + Broadcast(energyListeners, RunStep(old(State()), keys).notes)
    {
      ghost var move := RunMoveStep(State(), keys);
      RunMove(keys);
      GroundJump(keys);
      AppendBroadcasts(old(calls), energyListeners, move.notes, GroundJumpStep(move.m, keys).notes);
    }

    /** The horizontal part of RunState.update. */
    method RunMove(keys: Keys)
      requires Valid()
      modifies this`energy, this`calls, this`vx
      ensures Valid()
      ensures State() == RunMoveStep(old(State()), keys).m
      ensures calls == old(calls) + Broadcast(energyListeners, RunMoveStep(old(State()), keys).notes)
    {
      var xVel := 0;
      if keys.left {
        xVel := xVel - VelocityX;
      }
      if keys.right {
        xVel := xVel + VelocityX;
      }
      if xVel == 0 {
        vx := 0;
      } else if vy == 0 {
        if energy >= RunCostPerUpdate {
          vx := xVel;
          SpendEnergy(RunCostPerUpdate);
        } else {
          vx := 0;
        }
      } else {
        vx := xVel;
      }
    }

    method JumpUpdate(keys: Keys)
      requires Valid()
      modifies this`energy, this`calls, this`vx, this`vy, this`doubleJumpUsed
      ensures State() == JumpStep(old(State()), keys).m
      ensures calls == old(calls) + Broadcast(energyListeners, JumpStep(old(State()), keys).notes)
    {
      var xVel := 0;
      if keys.left {
        xVel := xVel - VelocityX;
      }
      if keys.right {
        xVel := xVel + VelocityX;
      }
      vx := xVel;
      if vy != 0 && vy > 0 && !doubleJumpUsed && keys.space && !spacePressedLastUpdate
         && energy >= DoubleJumpCost {
        SpendEnergy(DoubleJumpCost);
        doubleJumpUsed := true;
        vy := JumpVelocityY;
      }
    }

    /** One frame of Avatar.update; the engine's physics step is given as frame.vy. */
    method Update(frame: Frame)
      requires Valid()
      modifies this
      ensures Valid()
      ensures State() == Tick(old(State()), frame).m
      ensures calls == old(calls) + Broadcast(energyListeners, Tick(old(State()), frame).notes)
      ensures energyListeners == old(energyListeners) && top == old(top)
    {
      BeginUpdate(frame);
      UpdateCurrentState(frame.keys);
      spacePressedLastUpdate := frame.keys.space;
    }

    /** The start of Avatar.update: the engine's vertical velocity, the double jump reset on ground, the state switch. */
    method BeginUpdate(frame: Frame)
      modifies this`vy, this`doubleJumpUsed, this`kind
      ensures State() == BeginFrame(old(State()), frame)
    {
      vy := frame.vy;
      if vy == 0 {
        doubleJumpUsed := false;
      }
      var next := ChooseNextState(vy, frame.keys, energy);
      if next != kind {
        kind := next;
      }
    }

    /** Dispatches the frame to the current state's update. */
    method UpdateCurrentState(keys: Keys)
      requires Valid()
      modifies this`energy, this`calls, this`vx, this`vy, this`doubleJumpUsed
      ensures State() == StateStep(old(State()), keys).m
      ensures calls == old(calls) + Broadcast(energyListeners, StateStep(old(State()), keys).notes)
    {
      match kind {
        case Idle => IdleUpdate(keys);
        case Run => RunUpdate(keys);
        case Jump => JumpUpdate(keys);
      }
    }

    /**
     * Landing on a block: when falling onto a "block"-tagged object whose
     * contact normal points up, stop and sit on top of it; otherwise nothing.
     */
    method OnCollisionEnter(other: Collider, normalY: real)
      modifies this`vy, this`top
      ensures if other.tag == BlockTag && old(vy) > 0 && normalY < 0.0
              then vy == 0 && top == other.top - AvatarSize as real
              else vy == old(vy) && top == old(top)
    {
      if other.tag != BlockTag {
        return;
      }
      if !(vy > 0) {
        return;
      }
      if normalY < 0.0 {
        vy := 0;
        top := other.top - AvatarSize as real;
      }
    }
  }
}

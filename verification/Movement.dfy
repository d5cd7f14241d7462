/** The `Movement` gameplay component: on every update it pushes its rigid body
    left while key A is held and right while key D is held, as long as the body
    is not already moving too fast that way, and it records whether it pushed.

    The keyboard and the physics body are outside the model: the key states and
    the x-velocity read by each of the two checks are inputs, and the calls the
    component makes on its body and game object are the output effects. */
module Movement {
  import opened Wrappers

  /** A `glm::vec3` of single-precision floats, modelled with reals. */
  datatype Vec3 = Vec3(x: real, y: real, z: real)

  type BodyId = nat

  /** The impulse strength the constructor sets. */
  const DefaultImpulse: real := 0.1

  /** The speed along x beyond which a key no longer pushes that way. */
  const SpeedLimit: real := 20.0

  /** The rotation the game object is given whenever it is pushed. */
  const MovingRotation: Vec3 := Vec3(90.0, 0.0, 0.0)

  /** The component's own state: the moving flag, the impulse strength, and the
      rigid body found on the game object (null until `Awake` finds one). */
  datatype Movement = Movement(isMoving: bool, impulse: real, body: Option<BodyId>)

  /** One update's inputs: whether each key is down, and the body's x-velocity
      as read by the A check and by the D check. */
  datatype Input = Input(keyA: bool, keyD: bool, velocityAtA: real, velocityAtD: real)

  /** A call the component makes on its body or on its game object. */
  datatype Effect = ApplyImpulse(impulse: Vec3) | SetRotation(rotation: Vec3)

  /** What one update leaves behind: the component's new state and the calls it
      made, in order. */
  datatype Outcome = Outcome(component: Movement, effects: seq<Effect>)

  /** The constructor: a new component is not moving, pushes with the default
      impulse and has not looked up its body yet. */
  function Create(): (m: Movement)
    ensures !m.isMoving
    ensures m.impulse == 0.1
    ensures m.body.None?
  {
    Movement(false, DefaultImpulse, None)
  }

  /** `Awake` with the body lookup's outcome and the component's `IsEnabled`
      flag: the body is stored, and the component is disabled when there is none. */
  function Awake(m: Movement, isEnabled: bool, found: Option<BodyId>): (r: (Movement, bool))
    ensures r.0 == m.(body := found)
    ensures r.1 == (isEnabled && found.Some?)
  {
    (m.(body := found), if found.None? then false else isEnabled)
  }

  /** A component that is still enabled after `Awake` has a body, so every
      update of it is well defined whatever keys are down. */
  lemma AwakeEnablesUpdate(m: Movement, isEnabled: bool, found: Option<BodyId>)
    requires Awake(m, isEnabled, found).1
    ensures Awake(m, isEnabled, found).0.body.Some?
    ensures isEnabled
  {
  }

  // ---------------------------------------------------------------------------
  // Update
  // ---------------------------------------------------------------------------

  /** The A check fires when A is held and the body is not moving right faster
      than the limit; the D check when D is held and it is not moving left
      faster than the limit. */
  predicate PushesLeft(input: Input) { input.keyA && input.velocityAtA <= SpeedLimit }
  predicate PushesRight(input: Input) { input.keyD && input.velocityAtD >= -SpeedLimit }

  /** Every impulse is immediately followed by setting the moving rotation, and
      every rotation is set immediately after an impulse. */
  predicate RotatesAfterEachImpulse(es: seq<Effect>)
  {
    && (forall i :: 0 <= i < |es| && es[i].ApplyImpulse? ==> i + 1 < |es| && es[i + 1] == SetRotation(MovingRotation))
    && (forall i :: 0 <= i < |es| && es[i].SetRotation? ==> 0 < i && es[i - 1].ApplyImpulse?)
  }

  /** One key branch: when it fires, push by `impulse` along x, mark the
      component as moving and set the rotation to (90, 0, 0). */
  function KeyBranch(m: Movement, fires: bool, impulse: real): (u: Outcome)
    ensures u.component == (if fires then m.(isMoving := true) else m)
    ensures Impulses(u.effects) == (if fires then [Vec3(impulse, 0.0, 0.0)] else [])
    ensures RotationSet(u.effects) <==> fires
    ensures RotatesAfterEachImpulse(u.effects)
    ensures forall e :: e in u.effects && e.SetRotation? ==> e.rotation == MovingRotation
  {
    if fires then
      PushThenTurn(impulse);
      Outcome(m.(isMoving := true), [ApplyImpulse(Vec3(impulse, 0.0, 0.0)), SetRotation(MovingRotation)])
    else Outcome(m, [])
  }

  /** The two effects of a firing branch apply one impulse and set the rotation. */
  lemma PushThenTurn(impulse: real)
    ensures var es := [ApplyImpulse(Vec3(impulse, 0.0, 0.0)), SetRotation(MovingRotation)];
      Impulses(es) == [Vec3(impulse, 0.0, 0.0)] && RotationSet(es)
  {
    var es := [ApplyImpulse(Vec3(impulse, 0.0, 0.0)), SetRotation(MovingRotation)];
    assert es[1..] == [SetRotation(MovingRotation)] && es[1..][1..] == [];
    assert es[1].SetRotation?;
    assert Impulses(es[1..]) == Impulses(es[1..][1..]) == [];
  }

  /** The update: clear the moving flag, then the A branch, then the D branch.
      The body is read only inside a branch whose key is down. */
  function Update(m: Movement, input: Input): (u: Outcome)
    requires input.keyA || input.keyD ==> m.body.Some?
    ensures u.component.isMoving <==> PushesLeft(input) || PushesRight(input)
    ensures u.component.impulse == m.impulse && u.component.body == m.body
    ensures Impulses(u.effects) == (if PushesLeft(input) then [Vec3(-m.impulse, 0.0, 0.0)] else [])
                                 + (if PushesRight(input) then [Vec3(m.impulse, 0.0, 0.0)] else [])
    ensures RotationSet(u.effects) <==> u.component.isMoving
    ensures RotatesAfterEachImpulse(u.effects)
    ensures forall e :: e in u.effects && e.SetRotation? ==> e.rotation == MovingRotation
  {
    var cleared := m.(isMoving := false);
    var a := KeyBranch(cleared, PushesLeft(input), -m.impulse);
    var d := KeyBranch(a.component, PushesRight(input), m.impulse);
    ImpulsesOfAppend(a.effects, d.effects);
    RotationSetOfAppend(a.effects, d.effects);
    RotatesAfterEachImpulseOfAppend(a.effects, d.effects);
    Outcome(d.component, a.effects + d.effects)
  }

  /** The impulses among the effects, in order. */
  function Impulses(es: seq<Effect>): seq<Vec3>
  {
    if es == [] then [] else (if es[0].ApplyImpulse? then [es[0].impulse] else []) + Impulses(es[1..])
  }

  /** Whether the effects set the game object's rotation. */
  predicate RotationSet(es: seq<Effect>)
  {
    exists i :: 0 <= i < |es| && es[i].SetRotation?
  }

  lemma {:induction false} ImpulsesOfAppend(a: seq<Effect>, b: seq<Effect>)
    ensures Impulses(a + b) == Impulses(a) + Impulses(b)
    decreases |a|
  {
    if a != [] {
      assert (a + b)[1..] == a[1..] + b;
      ImpulsesOfAppend(a[1..], b);
    } else {
      assert a + b == b;
    }
  }

  lemma RotationSetOfAppend(a: seq<Effect>, b: seq<Effect>)
    ensures RotationSet(a + b) <==> RotationSet(a) || RotationSet(b)
  {
    if RotationSet(a) {
      var i :| 0 <= i < |a| && a[i].SetRotation?;
      assert (a + b)[i] == a[i];
    }
    if RotationSet(b) {
      var i :| 0 <= i < |b| && b[i].SetRotation?;
      assert (a + b)[|a| + i] == b[i];
    }
    if RotationSet(a + b) {
      var i :| 0 <= i < |a + b| && (a + b)[i].SetRotation?;
      if i >= |a| {
        assert b[i - |a|].SetRotation?;
      } else {
        assert a[i].SetRotation?;
      }
    }
  }

  lemma RotatesAfterEachImpulseOfAppend(a: seq<Effect>, b: seq<Effect>)
    requires RotatesAfterEachImpulse(a) && RotatesAfterEachImpulse(b)
    ensures RotatesAfterEachImpulse(a + b)
  {
  }

  /** The result does not depend on the moving flag from the previous update:
      the update always starts by clearing it. */
  lemma UpdateResetsMoving(m: Movement, input: Input, wasMoving: bool)
    requires input.keyA || input.keyD ==> m.body.Some?
    ensures Update(m.(isMoving := wasMoving), input) == Update(m, input)
  {
  }

  /** With neither key down nothing is pushed, the rotation is left alone and the
      component ends not moving. */
  lemma UpdateWithoutKeys(m: Movement, velocityAtA: real, velocityAtD: real)
    ensures var u := Update(m, Input(false, false, velocityAtA, velocityAtD));
      u.effects == [] && !u.component.isMoving
  {
  }

  /** Key A alone pushes left exactly when the body is not already moving right
      faster than the limit. */
  lemma UpdateKeyAAlone(m: Movement, velocity: real)
    requires m.body.Some?
    ensures var u := Update(m, Input(true, false, velocity, velocity));
      if velocity <= SpeedLimit then
        u.effects == [ApplyImpulse(Vec3(-m.impulse, 0.0, 0.0)), SetRotation(MovingRotation)] && u.component.isMoving
      else
        u.effects == [] && !u.component.isMoving
  {
    var u := Update(m, Input(true, false, velocity, velocity));
    if velocity <= SpeedLimit {
      assert u.effects == [ApplyImpulse(Vec3(-m.impulse, 0.0, 0.0)), SetRotation(MovingRotation)] + [];
    }
  }

  /** Key D alone pushes right exactly when the body is not already moving left
      faster than the limit. */
  lemma UpdateKeyDAlone(m: Movement, velocity: real)
    requires m.body.Some?
    ensures var u := Update(m, Input(false, true, velocity, velocity));
      if velocity >= -SpeedLimit then
        u.effects == [ApplyImpulse(Vec3(m.impulse, 0.0, 0.0)), SetRotation(MovingRotation)] && u.component.isMoving
      else
        u.effects == [] && !u.component.isMoving
  {
    var u := Update(m, Input(false, true, velocity, velocity));
    if velocity >= -SpeedLimit {
      assert u.effects == [] + [ApplyImpulse(Vec3(m.impulse, 0.0, 0.0)), SetRotation(MovingRotation)];
    }
  }

  /** Both keys down with both checks passing apply A's push and then D's, with
      the rotation set after each, and the component ends moving. */
  lemma UpdateBothKeys(m: Movement, input: Input)
    requires input.keyA && input.keyD && m.body.Some?
    requires input.velocityAtA <= SpeedLimit && input.velocityAtD >= -SpeedLimit
    ensures var u := Update(m, input);
      && u.effects == [ApplyImpulse(Vec3(-m.impulse, 0.0, 0.0)), SetRotation(MovingRotation),
                       ApplyImpulse(Vec3(m.impulse, 0.0, 0.0)), SetRotation(MovingRotation)]
      && Impulses(u.effects) == [Vec3(-m.impulse, 0.0, 0.0), Vec3(m.impulse, 0.0, 0.0)]
      && u.component.isMoving
  {
    var u := Update(m, input);
    assert u.effects == [ApplyImpulse(Vec3(-m.impulse, 0.0, 0.0)), SetRotation(MovingRotation)]
                      + [ApplyImpulse(Vec3(m.impulse, 0.0, 0.0)), SetRotation(MovingRotation)];
  }

  // ---------------------------------------------------------------------------
  // Serialisation
  // ---------------------------------------------------------------------------

  /** A JSON document. */
  datatype Json =
    | JNull
    | JBool(b: bool)
    | JNumber(n: real)
    | JString(s: string)
    | JArray(items: seq<Json>)
    | JObject(members: map<string, Json>)

  /** Why reading a component back fails: the blob is not an object, has no
      "moving" member, or that member is not a boolean. */
  datatype JsonError = NotAnObject | MissingKey(key: string) | NotABoolean(key: string)

  const MovingKey: string := "moving"

  /** Only the moving flag is written out. */
  function ToJson(m: Movement): (j: Json)
    ensures j.JObject? && j.members.Keys == {MovingKey}
    ensures j.members[MovingKey] == JBool(m.isMoving)
  {
    JObject(map[MovingKey := JBool(m.isMoving)])
  }

  /** A freshly constructed component with the moving flag read from the blob. */
  function FromJson(blob: Json): (r: Result<Movement, JsonError>)
    ensures r.Success? <==> blob.JObject? && MovingKey in blob.members && blob.members[MovingKey].JBool?
    ensures r.Success? ==> r.value == Create().(isMoving := blob.members[MovingKey].b)
  {
    if !blob.JObject? then Failure(NotAnObject)
    else if MovingKey !in blob.members then Failure(MissingKey(MovingKey))
    else
      var v := blob.members[MovingKey];
      if !v.JBool? then Failure(NotABoolean(MovingKey))
      else Success(Create().(isMoving := v.b))
  }

  /** Reading back what was written keeps the moving flag, but the impulse and
      the body are those of a new component, not of the one written. */
  lemma JsonRoundTrip(m: Movement)
    ensures FromJson(ToJson(m)) == Success(Movement(m.isMoving, DefaultImpulse, None))
    ensures FromJson(ToJson(m)).value.isMoving == m.isMoving
  {
  }

  /** Writing out what was read back keeps only the "moving" member of the blob. */
  lemma JsonReadThenWrite(blob: Json)
    requires FromJson(blob).Success?
    ensures ToJson(FromJson(blob).value) == JObject(map[MovingKey := blob.members[MovingKey]])
  {
  }
}

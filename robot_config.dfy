/**
 * The robot's configuration record (config/robot_config.py): speed presets,
 * per-attachment Z heights, preset poses and the mutable session fields
 * (current attachment and current state) that the robot service writes.
 */
module RobotConfig {
  import opened Models
  import opened Wrappers

  /** Contact and non-contact tool heights for one attachment. */
  datatype ZHeights = ZHeights(lowered: real, raised: real)

  datatype Pose2 = Pose2(x: real, y: real)
  datatype Pose3 = Pose3(x: real, y: real, z: real)

  function DefaultSpeeds(): map<SpeedType, real>
  {
    map[Fast := 300.0, Normal := 100.0, Slow := 50.0]
  }

  function DefaultZHeights(): map<AttachmentType, ZHeights>
  {
    map[Marker := ZHeights(118.0, 125.0), Eraser := ZHeights(59.0, 80.0),
        Pen := ZHeights(120.0, 127.0), Empty := ZHeights(158.0, 170.0)]
  }

  class RobotConfig {
    var currentAttachment: AttachmentType
    var currentState: RobotState
    /** Every value written to currentState, oldest first; the last one is the current state. */
    ghost var stateTrace: seq<RobotState>
    var speeds: map<SpeedType, real>
    const attachmentZHeights: map<AttachmentType, ZHeights>
    const roll: real
    const pitch: real
    const yaw: real
    const mvacc: real
    const centredPosition: Pose2
    const changeToolPosition: Pose3
    const dockedPosition: Pose2

    /** What the lookups below need: a NORMAL fallback speed and Z heights for the mounted tool. */
    ghost predicate Valid()
      reads this
    {
      Normal in speeds && currentAttachment in attachmentZHeights
      && |stateTrace| > 0 && stateTrace[|stateTrace| - 1] == currentState
    }

    /** The dataclass built with every field at its default. */
    constructor ()
      ensures Valid()
      ensures currentAttachment == Marker && currentState == Unknown && stateTrace == [Unknown]
      ensures speeds == DefaultSpeeds() && attachmentZHeights == DefaultZHeights()
      ensures roll == 180.0 && pitch == 0.0 && yaw == 0.0 && mvacc == 100.0
      ensures centredPosition == Pose2(200.0, 0.0)
      ensures changeToolPosition == Pose3(350.0, 0.0, 300.0)
      ensures dockedPosition == Pose2(100.0, -250.0)
    {
      currentAttachment := Marker;
      currentState := Unknown;
      stateTrace := [Unknown];
      speeds := DefaultSpeeds();
      attachmentZHeights := DefaultZHeights();
      roll, pitch, yaw, mvacc := 180.0, 0.0, 0.0, 100.0;
      centredPosition := Pose2(200.0, 0.0);
      changeToolPosition := Pose3(350.0, 0.0, 300.0);
      dockedPosition := Pose2(100.0, -250.0);
    }

    /** The preset for `s`, or the NORMAL preset when `s` has none. */
    function GetSpeed(s: SpeedType): (r: real)
      reads this`speeds
      requires Normal in speeds
      ensures s in speeds ==> r == speeds[s]
      ensures s !in speeds ==> r == speeds[Normal]
    {
      if s in speeds then speeds[s] else speeds[Normal]
    }

    method SetSpeed(s: SpeedType, value: real)
      requires Valid()
      modifies this`speeds
      ensures Valid()
      ensures speeds == old(speeds)[s := value]
      ensures GetSpeed(s) == value
      ensures forall t :: t != s && t in old(speeds) ==> GetSpeed(t) == old(GetSpeed(t))
    {
      speeds := speeds[s := value];
    }

    /** Mounts `a` when it has Z heights; otherwise fails as the source's ValueError and changes nothing. */
    method SetAttachment(a: AttachmentType) returns (result: Outcome<string>)
      requires Valid()
      modifies this`currentAttachment
      ensures Valid()
      ensures result.Pass? <==> a in attachmentZHeights
      ensures result.Pass? ==> currentAttachment == a
      ensures result.Fail? ==> currentAttachment == old(currentAttachment)
    {
      if a in attachmentZHeights {
        currentAttachment := a;
        result := Pass;
      } else {
        result := Fail("Unknown attachment z-height");
      }
    }

    /**
     * Contact height of the mounted tool; with the default table it lies
     * between the eraser's 59 and the empty flange's 158, at least 7 below the
     * raised height.
     */
    function ZLowered(): (r: real)
      reads this`currentAttachment
      requires currentAttachment in attachmentZHeights
      ensures attachmentZHeights == DefaultZHeights() ==> 59.0 <= r <= 158.0 && r + 7.0 <= ZRaised()
    {
      attachmentZHeights[currentAttachment].lowered
    }

    /** Non-contact height of the mounted tool; with the default table between 80 and 170. */
    function ZRaised(): (r: real)
      reads this`currentAttachment
      requires currentAttachment in attachmentZHeights
      ensures attachmentZHeights == DefaultZHeights() ==> 80.0 <= r <= 170.0
    {
      attachmentZHeights[currentAttachment].raised
    }
  }

  /** With the default presets, FAST is 300, NORMAL 100 and SLOW 50. */
  lemma DefaultSpeedValues(cfg: RobotConfig)
    requires cfg.Valid() && cfg.speeds == DefaultSpeeds()
    ensures cfg.GetSpeed(Fast) == 300.0 && cfg.GetSpeed(Normal) == 100.0 && cfg.GetSpeed(Slow) == 50.0
  {
  }

  /** Whatever tool is mounted, with the default heights the pen-down Z is below the pen-up Z. */
  lemma MountedToolLoweredBelowRaised(cfg: RobotConfig)
    requires cfg.Valid() && cfg.attachmentZHeights == DefaultZHeights()
    ensures cfg.ZLowered() < cfg.ZRaised()
    ensures cfg.currentAttachment == Eraser ==> cfg.ZLowered() == 59.0 && cfg.ZRaised() == 80.0
  {
  }

  /** Every default attachment has its contact height strictly below its raised height. */
  lemma DefaultLoweredBelowRaised(a: AttachmentType)
    ensures a in DefaultZHeights()
    ensures DefaultZHeights()[a].lowered < DefaultZHeights()[a].raised
  {
  }
}

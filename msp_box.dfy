/** The MSP mode boxes: the static table of flight-mode boxes, the list of
    boxes the current configuration offers, and the replies that describe
    them to a configurator. */
module MspBox {
  import opened Common
  import opened StreamBuffer

  /** `CHECKBOX_ITEM_COUNT`: the number of box ids. */
  const CheckboxItemCount: nat := 32

  // Box ids (`BOXARM` ... `BOXCAMERA3`), numbered in the order of the
  // table below.
  const BoxArm := 0
  const BoxAngle := 1
  const BoxHorizon := 2
  const BoxNavAltHold := 3
  const BoxHeadingHold := 4
  const BoxHeadFree := 5
  const BoxHeadAdj := 6
  const BoxCamStab := 7
  const BoxNavRth := 8
  const BoxNavPosHold := 9
  const BoxManual := 10
  const BoxBeeperOn := 11
  const BoxLedLow := 12
  const BoxLights := 13
  const BoxOsd := 14
  const BoxTelemetry := 15
  const BoxAutoTune := 16
  const BoxBlackbox := 17
  const BoxFailsafe := 18
  const BoxNavWp := 19
  const BoxAirMode := 20
  const BoxHomeReset := 21
  const BoxGcsNav := 22
  const BoxSurface := 23
  const BoxFlaperon := 24
  const BoxTurnAssist := 25
  const BoxNavLaunch := 26
  const BoxAutoTrim := 27
  const BoxKillSwitch := 28
  const BoxCamera1 := 29
  const BoxCamera2 := 30
  const BoxCamera3 := 31

  /** `box_t`: a box id, its name (NULL for the sentinel) and the permanent
      id configurators store. */
  datatype Box = Box(boxId: byte, boxName: Option<string>, permanentId: byte)

  /** The `boxes` table, closed by the sentinel entry. */
  const Boxes: seq<Box> := [
    Box(BoxArm, Some("ARM"), 0),
    Box(BoxAngle, Some("ANGLE"), 1),
    Box(BoxHorizon, Some("HORIZON"), 2),
    Box(BoxNavAltHold, Some("NAV ALTHOLD"), 3),
    Box(BoxHeadingHold, Some("HEADING HOLD"), 5),
    Box(BoxHeadFree, Some("HEADFREE"), 6),
    Box(BoxHeadAdj, Some("HEADADJ"), 7),
    Box(BoxCamStab, Some("CAMSTAB"), 8),
    Box(BoxNavRth, Some("NAV RTH"), 10),
    Box(BoxNavPosHold, Some("NAV POSHOLD"), 11),
    Box(BoxManual, Some("MANUAL"), 12),
    Box(BoxBeeperOn, Some("BEEPER"), 13),
    Box(BoxLedLow, Some("LEDLOW"), 15),
    Box(BoxLights, Some("LIGHTS"), 16),
    Box(BoxOsd, Some("OSD SW"), 19),
    Box(BoxTelemetry, Some("TELEMETRY"), 20),
    Box(BoxAutoTune, Some("AUTO TUNE"), 21),
    Box(BoxBlackbox, Some("BLACKBOX"), 26),
    Box(BoxFailsafe, Some("FAILSAFE"), 27),
    Box(BoxNavWp, Some("NAV WP"), 28),
    Box(BoxAirMode, Some("AIR MODE"), 29),
    Box(BoxHomeReset, Some("HOME RESET"), 30),
    Box(BoxGcsNav, Some("GCS NAV"), 31),
    Box(BoxSurface, Some("SURFACE"), 33),
    Box(BoxFlaperon, Some("FLAPERON"), 34),
    Box(BoxTurnAssist, Some("TURN ASSIST"), 35),
    Box(BoxNavLaunch, Some("NAV LAUNCH"), 36),
    Box(BoxAutoTrim, Some("SERVO AUTOTRIM"), 37),
    Box(BoxKillSwitch, Some("KILLSWITCH"), 38),
    Box(BoxCamera1, Some("CAMERA CONTROL 1"), 39),
    Box(BoxCamera2, Some("CAMERA CONTROL 2"), 40),
    Box(BoxCamera3, Some("CAMERA CONTROL 3"), 41),
    Box(CheckboxItemCount, None, 0xFF)]

  /** The entries of `boxes` are indexed by their box id. */
  predicate IndexedById(boxes: seq<Box>)
  {
    forall i :: 0 <= i < |boxes| ==> boxes[i].boxId == i
  }

  /** Box id `id` labels one of the first `CHECKBOX_ITEM_COUNT` entries. */
  predicate Labelled(boxes: seq<Box>, id: byte)
  {
    exists i :: 0 <= i < CheckboxItemCount && i < |boxes| && boxes[i].boxId == id
  }

  /** Every box id below `CHECKBOX_ITEM_COUNT` labels one of the first
      `CHECKBOX_ITEM_COUNT` entries, wherever it sits among them: the
      lookups search by the field, not by position. */
  predicate IdsLabelEntries(boxes: seq<Box>)
  {
    CheckboxItemCount <= |boxes|
    && forall id: byte :: id < CheckboxItemCount ==> Labelled(boxes, id)
  }

  /** Exactly the entries before `count` carry a name. */
  predicate NamedBelow(boxes: seq<Box>, count: nat)
  {
    forall i :: 0 <= i < |boxes| ==> (boxes[i].boxName.Some? <==> i < count)
  }

  /** The permanent id grows from entry `i` to the next. */
  predicate PermanentIdRisesAt(boxes: seq<Box>, i: nat)
    requires i + 1 < |boxes|
  {
    boxes[i].permanentId < boxes[i + 1].permanentId
  }

  predicate PermanentIdsRise(boxes: seq<Box>)
  {
    forall i :: 0 <= i < |boxes| - 1 ==> PermanentIdRisesAt(boxes, i)
  }

  /** The `boxes` table is indexed by box id, only the sentinel lacks a
      name, and the permanent ids grow along the table up to the
      sentinel's 0xFF. */
  lemma TableShape()
    ensures |Boxes| == CheckboxItemCount + 1
    ensures IndexedById(Boxes)
    ensures NamedBelow(Boxes, CheckboxItemCount)
    ensures PermanentIdsRise(Boxes)
    ensures Boxes[CheckboxItemCount].permanentId == 0xFF
  {
  }

  /** Strictly rising permanent ids are pairwise distinct. */
  lemma {:induction false} PermanentIdsAscend(boxes: seq<Box>, i: nat, j: nat)
    requires PermanentIdsRise(boxes)
    requires i < j < |boxes|
    ensures boxes[i].permanentId < boxes[j].permanentId
    decreases j - i
  {
    assert PermanentIdRisesAt(boxes, i);
    if i + 1 < j {
      PermanentIdsAscend(boxes, i + 1, j);
    }
  }

  /** The first entry of `boxes` at or after `from` with box id `id`. */
  function BoxWithId(boxes: seq<Box>, id: byte, from: nat): (r: Option<nat>)
    ensures r.Some? ==> from <= r.value < |boxes| && boxes[r.value].boxId == id
    ensures r.Some? ==> forall j :: from <= j < r.value ==> boxes[j].boxId != id
    ensures r.None? ==> forall j :: from <= j < |boxes| ==> boxes[j].boxId != id
    decreases |boxes| - from
  {
    if from >= |boxes| then None
    else if boxes[from].boxId == id then Some(from)
    else BoxWithId(boxes, id, from + 1)
  }

  /** The first entry of `boxes` at or after `from` with permanent id `id`. */
  function BoxWithPermanentId(boxes: seq<Box>, id: byte, from: nat): (r: Option<nat>)
    ensures r.Some? ==> from <= r.value < |boxes| && boxes[r.value].permanentId == id
    ensures r.Some? ==> forall j :: from <= j < r.value ==> boxes[j].permanentId != id
    ensures r.None? ==> forall j :: from <= j < |boxes| ==> boxes[j].permanentId != id
    decreases |boxes| - from
  {
    if from >= |boxes| then None
    else if boxes[from].permanentId == id then Some(from)
    else BoxWithPermanentId(boxes, id, from + 1)
  }

  /** `findBoxByActiveBoxId` over the table `boxes` (the `boxes` constant
      at every call): the entry, as its index, whose box id is
      `activeBoxId`, the sentinel included, or NULL. */
  method FindBoxByActiveBoxId(boxes: seq<Box>, activeBoxId: byte) returns (r: Option<nat>)
    requires |boxes| < 0x100
    ensures r == BoxWithId(boxes, activeBoxId, 0)
  {
    var boxIndex := 0;
    while boxIndex < |boxes|
      invariant boxIndex <= |boxes|
      invariant forall j :: 0 <= j < boxIndex ==> boxes[j].boxId != activeBoxId
    {
      if boxes[boxIndex].boxId == activeBoxId {
        return Some(boxIndex);
      }
      boxIndex := boxIndex + 1;
    }
    return None;
  }

  /** `findBoxByPermanentId` over the table `boxes`: the entry whose
      permanent id is `permanentId`, or NULL. */
  method FindBoxByPermanentId(boxes: seq<Box>, permanentId: byte) returns (r: Option<nat>)
    requires |boxes| < 0x100
    ensures r == BoxWithPermanentId(boxes, permanentId, 0)
  {
    var boxIndex := 0;
    while boxIndex < |boxes|
      invariant boxIndex <= |boxes|
      invariant forall j :: 0 <= j < boxIndex ==> boxes[j].permanentId != permanentId
    {
      if boxes[boxIndex].permanentId == permanentId {
        return Some(boxIndex);
      }
      boxIndex := boxIndex + 1;
    }
    return None;
  }

  /** In a table indexed by box id, every id below the table's length
      finds its own entry (in `boxes`, id `CHECKBOX_ITEM_COUNT` finds the
      sentinel) and any larger id finds nothing. */
  lemma FindByIdIsIndex(boxes: seq<Box>, id: byte)
    requires IndexedById(boxes)
    ensures id < |boxes| ==> BoxWithId(boxes, id, 0) == Some(id as nat)
    ensures id >= |boxes| ==> BoxWithId(boxes, id, 0) == None
  {
    if id < |boxes| {
      assert boxes[id].boxId == id;
    }
    var r := BoxWithId(boxes, id, 0);
    if r.Some? {
      assert boxes[r.value].boxId == r.value;
    }
  }

  /** In a table where every box id below `CHECKBOX_ITEM_COUNT` labels
      an entry, `findBoxByActiveBoxId` finds such an id among the first
      `CHECKBOX_ITEM_COUNT` entries: the entry `EntryOf` names. */
  ghost function EntryOf(boxes: seq<Box>, id: byte): (r: nat)
    requires IdsLabelEntries(boxes) && id < CheckboxItemCount
    ensures r < CheckboxItemCount && boxes[r].boxId == id
    ensures BoxWithId(boxes, id, 0) == Some(r)
  {
    assert Labelled(boxes, id);
    var w :| 0 <= w < CheckboxItemCount && w < |boxes| && boxes[w].boxId == id;
    assert boxes[w].boxId == id;
    BoxWithId(boxes, id, 0).value
  }

  /** What the replies rely on in a box table: one entry per box id and
      the sentinel, every box id labelling one of the named entries, and
      rising permanent ids. */
  predicate BoxTable(boxes: seq<Box>)
  {
    |boxes| == CheckboxItemCount + 1 && IdsLabelEntries(boxes)
    && NamedBelow(boxes, CheckboxItemCount) && PermanentIdsRise(boxes)
  }

  lemma BoxesIsBoxTable()
    ensures BoxTable(Boxes)
  {
    TableShape();
    forall id: byte | id < CheckboxItemCount
      ensures Labelled(Boxes, id)
    {
      assert Boxes[id].boxId == id;
    }
  }

  /** In a table whose permanent ids rise, looking up an entry's permanent
      id finds that entry again. */
  lemma FindByPermanentIdRoundTrip(boxes: seq<Box>, i: nat)
    requires PermanentIdsRise(boxes)
    requires i < |boxes|
    ensures BoxWithPermanentId(boxes, boxes[i].permanentId, 0) == Some(i)
  {
    var r := BoxWithPermanentId(boxes, boxes[i].permanentId, 0);
    if r.Some? && r.value < i {
      PermanentIdsAscend(boxes, r.value, i);
    }
  }

  /** Sensors the board detected (`sensors(SENSOR_...)`). */
  datatype Sensors = Sensors(acc: bool, baro: bool, mag: bool, gps: bool,
                             rangefinder: bool, pitot: bool)

  /** Enabled features (`feature(FEATURE_...)`). */
  datatype Features = Features(airMode: bool, servoTilt: bool, gps: bool, fwLaunch: bool,
                               ledStrip: bool, telemetry: bool, blackbox: bool)

  /** Build options (`USE_...`, `AUTOTUNE_FIXED_WING`). */
  datatype BuildOptions = BuildOptions(flmTurnAssist: bool, flmFlaperon: bool, useGps: bool,
                                       useServos: bool, useLights: bool, useLedStrip: bool,
                                       useTelemetry: bool, useBlackbox: bool, useRcDevice: bool,
                                       autotuneFixedWing: bool)

  /** What the builder asks about the craft: sensors, features, the
      `FIXED_WING` and `FLAPERON_AVAILABLE` states and the telemetry
      switch setting. */
  datatype Craft = Craft(sensors: Sensors, features: Features, fixedWing: bool,
                         flaperonAvailable: bool, telemetrySwitch: bool)

  /** The order in which `initActiveBoxIds` considers the boxes. */
  const BuildOrder: seq<byte> := [
    BoxArm, BoxAngle, BoxHorizon, BoxTurnAssist, BoxAirMode, BoxHeadingHold,
    BoxHeadFree, BoxHeadAdj, BoxCamStab, BoxNavAltHold, BoxSurface,
    BoxNavPosHold, BoxNavRth, BoxNavWp, BoxHomeReset, BoxGcsNav,
    BoxManual, BoxNavLaunch, BoxAutoTrim, BoxAutoTune, BoxFlaperon,
    BoxBeeperOn, BoxLights, BoxLedLow, BoxOsd, BoxTelemetry, BoxBlackbox,
    BoxKillSwitch, BoxFailsafe, BoxCamera1, BoxCamera2, BoxCamera3]

  /** Where each box id sits in `BuildOrder`. */
  ghost const BuildPosition: seq<nat> := [
    0, 1, 2, 9, 5, 6, 7, 8, 12, 11, 16, 21, 23, 22, 24, 25,
    19, 26, 28, 13, 4, 14, 15, 10, 20, 3, 17, 18, 27, 29, 30, 31]

  /** `BuildOrder` lists box ids below `CHECKBOX_ITEM_COUNT`, each at the
      position `BuildPosition` gives for it. */
  lemma BuildOrderIsPermutation()
    ensures |BuildOrder| == CheckboxItemCount && |BuildPosition| == CheckboxItemCount
    ensures forall k :: 0 <= k < |BuildOrder| ==>
      BuildOrder[k] < |BuildPosition| && BuildPosition[BuildOrder[k]] == k
  {
  }

  /** No element of `s` occurs twice. */
  predicate Distinct(s: seq<byte>)
  {
    forall i, j :: 0 <= i < j < |s| ==> s[i] != s[j]
  }

  lemma BuildOrderDistinct()
    ensures Distinct(BuildOrder)
  {
    BuildOrderIsPermutation();
  }

  /** A box the builder considers, with the value of the condition under
      which it appends the box. */
  datatype Candidate = Candidate(id: byte, wanted: bool)

  /** `cands` followed by the arming and attitude boxes (lines 151-160). */
  function WithAttitude(cands: seq<Candidate>, build: BuildOptions, craft: Craft): seq<Candidate>
  {
    var acc := craft.sensors.acc;
    cands + [Candidate(BoxArm, true)] + [Candidate(BoxAngle, acc)] + [Candidate(BoxHorizon, acc)]
    + [Candidate(BoxTurnAssist, acc && build.flmTurnAssist)]
  }

  /** `cands` followed by the air-mode and heading boxes (lines 162-171). */
  function WithHeading(cands: seq<Candidate>, build: BuildOptions, craft: Craft): seq<Candidate>
  {
    var heading := craft.sensors.acc || craft.sensors.mag;
    cands + [Candidate(BoxAirMode, !craft.features.airMode)] + [Candidate(BoxHeadingHold, true)]
    + [Candidate(BoxHeadFree, heading)] + [Candidate(BoxHeadAdj, heading)]
  }

  /** The condition guarding NAV ALTHOLD and SURFACE (line 177). */
  predicate AltitudeAvailable(build: BuildOptions, craft: Craft)
  {
    build.useGps && (craft.sensors.baro || (craft.fixedWing && craft.features.gps))
  }

  /** The condition guarding the position-holding boxes (line 182). */
  predicate PositionAvailable(build: BuildOptions, craft: Craft)
  {
    var s := craft.sensors;
    var f := craft.features;
    build.useGps && ((f.gps && s.mag && s.acc) || (craft.fixedWing && s.acc && f.gps))
  }

  /** `cands` followed by CAMSTAB and the altitude boxes (lines 173-180). */
  function WithAltitude(cands: seq<Candidate>, build: BuildOptions, craft: Craft): seq<Candidate>
  {
    var altitude := AltitudeAvailable(build, craft);
    cands + [Candidate(BoxCamStab, craft.features.servoTilt)] + [Candidate(BoxNavAltHold, altitude)]
    + [Candidate(BoxSurface, altitude)]
  }

  /** `cands` followed by the position-holding boxes (lines 182-188). */
  function WithPosition(cands: seq<Candidate>, build: BuildOptions, craft: Craft): seq<Candidate>
  {
    var position := PositionAvailable(build, craft);
    cands + [Candidate(BoxNavPosHold, position)] + [Candidate(BoxNavRth, position)]
    + [Candidate(BoxNavWp, position)] + [Candidate(BoxHomeReset, position)]
    + [Candidate(BoxGcsNav, position)]
  }

  /** `cands` followed by the fixed-wing and flaperon boxes (lines 191-210). */
  function WithAirplane(cands: seq<Candidate>, build: BuildOptions, craft: Craft): seq<Candidate>
  {
    var w := craft.fixedWing;
    cands + [Candidate(BoxManual, w)] + [Candidate(BoxNavLaunch, w && !craft.features.fwLaunch)]
    + [Candidate(BoxAutoTrim, w)] + [Candidate(BoxAutoTune, w && build.autotuneFixedWing)]
    + [Candidate(BoxFlaperon, build.useServos && craft.flaperonAvailable)]
  }

  /** `cands` followed by the beeper, lights, LED and OSD boxes
      (lines 212-224). */
  function WithAuxiliary(cands: seq<Candidate>, build: BuildOptions, craft: Craft): seq<Candidate>
  {
    cands + [Candidate(BoxBeeperOn, true)] + [Candidate(BoxLights, build.useLights)]
    + [Candidate(BoxLedLow, build.useLedStrip && craft.features.ledStrip)] + [Candidate(BoxOsd, true)]
  }

  /** `cands` followed by the telemetry, blackbox, kill-switch and
      failsafe boxes (lines 226-238). */
  function WithSafety(cands: seq<Candidate>, build: BuildOptions, craft: Craft): seq<Candidate>
  {
    var f := craft.features;
    cands + [Candidate(BoxTelemetry, build.useTelemetry && f.telemetry && craft.telemetrySwitch)]
    + [Candidate(BoxBlackbox, build.useBlackbox && f.blackbox)]
    + [Candidate(BoxKillSwitch, true)] + [Candidate(BoxFailsafe, true)]
  }

  /** `cands` followed by the camera-control boxes (lines 240-244). */
  function WithCameras(cands: seq<Candidate>, build: BuildOptions, craft: Craft): seq<Candidate>
  {
    var camera := build.useRcDevice;
    cands + [Candidate(BoxCamera1, camera)] + [Candidate(BoxCamera2, camera)] + [Candidate(BoxCamera3, camera)]
  }

  /** Every box `initActiveBoxIds` considers, in its order. */
  function Candidates(build: BuildOptions, craft: Craft): seq<Candidate>
  {
    var attitude := WithHeading(WithAttitude([], build, craft), build, craft);
    var navigation := WithPosition(WithAltitude(attitude, build, craft), build, craft);
    var auxiliary := WithAuxiliary(WithAirplane(navigation, build, craft), build, craft);
    WithCameras(WithSafety(auxiliary, build, craft), build, craft)
  }

  /** The candidates' ids, in order. */
  function CandidateIds(cands: seq<Candidate>): (r: seq<byte>)
    ensures |r| == |cands|
    ensures forall k :: 0 <= k < |cands| ==> r[k] == cands[k].id
    decreases |cands|
  {
    if cands == [] then [] else CandidateIds(cands[..|cands| - 1]) + [cands[|cands| - 1].id]
  }

  /** The box a wanted candidate contributes. */
  function Pick(c: Candidate): seq<byte>
  {
    if c.wanted then [c.id] else []
  }

  /** The ids of the wanted candidates, in order. */
  function Chosen(cands: seq<Candidate>): seq<byte>
    decreases |cands|
  {
    if cands == [] then [] else Chosen(cands[..|cands| - 1]) + Pick(cands[|cands| - 1])
  }

  /** The box ids `initActiveBoxIds` leaves in `activeBoxIds`, in order. */
  function ActiveBoxList(build: BuildOptions, craft: Craft): seq<byte>
  {
    Chosen(Candidates(build, craft))
  }

  /** Whether the configuration calls for box `id`: the conditions of
      `initActiveBoxIds`, grouped by the box they guard. */
  predicate Wanted(build: BuildOptions, craft: Craft, id: byte)
  {
    var s := craft.sensors;
    var f := craft.features;
    var w := craft.fixedWing;
    if id in {BoxArm, BoxHeadingHold, BoxBeeperOn, BoxOsd, BoxKillSwitch, BoxFailsafe} then true
    else if id in {BoxAngle, BoxHorizon} then s.acc
    else if id == BoxTurnAssist then s.acc && build.flmTurnAssist
    else if id == BoxAirMode then !f.airMode
    else if id in {BoxHeadFree, BoxHeadAdj} then s.acc || s.mag
    else if id == BoxCamStab then f.servoTilt
    else if id in {BoxNavAltHold, BoxSurface} then AltitudeAvailable(build, craft)
    else if id in {BoxNavPosHold, BoxNavRth, BoxNavWp, BoxHomeReset, BoxGcsNav} then PositionAvailable(build, craft)
    else if id in {BoxManual, BoxAutoTrim} then w
    else if id == BoxNavLaunch then w && !f.fwLaunch
    else if id == BoxAutoTune then w && build.autotuneFixedWing
    else if id == BoxFlaperon then build.useServos && craft.flaperonAvailable
    else if id == BoxLights then build.useLights
    else if id == BoxLedLow then build.useLedStrip && f.ledStrip
    else if id == BoxTelemetry then build.useTelemetry && f.telemetry && craft.telemetrySwitch
    else if id == BoxBlackbox then build.useBlackbox && f.blackbox
    else if id in {BoxCamera1, BoxCamera2, BoxCamera3} then build.useRcDevice
    else false
  }

  /** The arming and attitude lines start the candidates with the first
      boxes of `BuildOrder`, each with the condition `Wanted` gives for
      it. */
  lemma AttitudeCandidates(build: BuildOptions, craft: Craft)
    ensures |WithAttitude([], build, craft)| == 4
    ensures forall k :: 0 <= k < 4 ==>
      WithAttitude([], build, craft)[k] == Candidate(BuildOrder[k], Wanted(build, craft, BuildOrder[k]))
  {
  }

  /** The air-mode and heading lines keep the candidates before them and add
      the boxes of `BuildOrder` from position 4 on, each with the condition
      `Wanted` gives for it. */
  lemma HeadingCandidates(cands: seq<Candidate>, build: BuildOptions, craft: Craft)
    requires |cands| == 4
    ensures |WithHeading(cands, build, craft)| == 8
    ensures forall k :: 0 <= k < |cands| ==> WithHeading(cands, build, craft)[k] == cands[k]
    ensures forall k :: 4 <= k < 8 ==>
      WithHeading(cands, build, craft)[k] == Candidate(BuildOrder[k], Wanted(build, craft, BuildOrder[k]))
  {
  }

  /** The CAMSTAB and altitude lines keep the candidates before them and add
      the boxes of `BuildOrder` from position 8 on, each with the condition
      `Wanted` gives for it. */
  lemma AltitudeCandidates(cands: seq<Candidate>, build: BuildOptions, craft: Craft)
    requires |cands| == 8
    ensures |WithAltitude(cands, build, craft)| == 11
    ensures forall k :: 0 <= k < |cands| ==> WithAltitude(cands, build, craft)[k] == cands[k]
    ensures forall k :: 8 <= k < 11 ==>
      WithAltitude(cands, build, craft)[k] == Candidate(BuildOrder[k], Wanted(build, craft, BuildOrder[k]))
  {
  }

  /** The position-holding lines keep the candidates before them and add the
      boxes of `BuildOrder` from position 11 on, each with the condition
      `Wanted` gives for it. */
  lemma PositionCandidates(cands: seq<Candidate>, build: BuildOptions, craft: Craft)
    requires |cands| == 11
    ensures |WithPosition(cands, build, craft)| == 16
    ensures forall k :: 0 <= k < |cands| ==> WithPosition(cands, build, craft)[k] == cands[k]
    ensures forall k :: 11 <= k < 16 ==>
      WithPosition(cands, build, craft)[k] == Candidate(BuildOrder[k], Wanted(build, craft, BuildOrder[k]))
  {
  }

  /** The fixed-wing and flaperon lines keep the candidates before them and
      add the boxes of `BuildOrder` from position 16 on, each with the
      condition `Wanted` gives for it. */
  lemma AirplaneCandidates(cands: seq<Candidate>, build: BuildOptions, craft: Craft)
    requires |cands| == 16
    ensures |WithAirplane(cands, build, craft)| == 21
    ensures forall k :: 0 <= k < |cands| ==> WithAirplane(cands, build, craft)[k] == cands[k]
    ensures forall k :: 16 <= k < 21 ==>
      WithAirplane(cands, build, craft)[k] == Candidate(BuildOrder[k], Wanted(build, craft, BuildOrder[k]))
  {
  }

  /** The beeper, lights, LED and OSD lines keep the candidates before them
      and add the boxes of `BuildOrder` from position 21 on, each with the
      condition `Wanted` gives for it. */
  lemma AuxiliaryCandidates(cands: seq<Candidate>, build: BuildOptions, craft: Craft)
    requires |cands| == 21
    ensures |WithAuxiliary(cands, build, craft)| == 25
    ensures forall k :: 0 <= k < |cands| ==> WithAuxiliary(cands, build, craft)[k] == cands[k]
    ensures forall k :: 21 <= k < 25 ==>
      WithAuxiliary(cands, build, craft)[k] == Candidate(BuildOrder[k], Wanted(build, craft, BuildOrder[k]))
  {
  }

  /** The telemetry, blackbox, kill-switch and failsafe lines keep the
      candidates before them and add the boxes of `BuildOrder` from position
      25 on, each with the condition `Wanted` gives for it. */
  lemma SafetyCandidates(cands: seq<Candidate>, build: BuildOptions, craft: Craft)
    requires |cands| == 25
    ensures |WithSafety(cands, build, craft)| == 29
    ensures forall k :: 0 <= k < |cands| ==> WithSafety(cands, build, craft)[k] == cands[k]
    ensures forall k :: 25 <= k < 29 ==>
      WithSafety(cands, build, craft)[k] == Candidate(BuildOrder[k], Wanted(build, craft, BuildOrder[k]))
  {
  }

  /** The camera-control lines keep the candidates before them and add the
      boxes of `BuildOrder` from position 29 on, each with the condition
      `Wanted` gives for it. */
  lemma CameraCandidates(cands: seq<Candidate>, build: BuildOptions, craft: Craft)
    requires |cands| == 29
    ensures |WithCameras(cands, build, craft)| == 32
    ensures forall k :: 0 <= k < |cands| ==> WithCameras(cands, build, craft)[k] == cands[k]
    ensures forall k :: 29 <= k < 32 ==>
      WithCameras(cands, build, craft)[k] == Candidate(BuildOrder[k], Wanted(build, craft, BuildOrder[k]))
  {
  }

  /** The candidates are the boxes of `BuildOrder`, each with the
      condition `Wanted` gives for it, whatever the configuration. */
  lemma CandidatesFollowBuildOrder(build: BuildOptions, craft: Craft)
    ensures CandidateIds(Candidates(build, craft)) == BuildOrder
    ensures forall k :: 0 <= k < |BuildOrder| ==>
      Candidates(build, craft)[k].wanted == Wanted(build, craft, BuildOrder[k])
  {
    var c0 := WithAttitude([], build, craft);
    var c1 := WithHeading(c0, build, craft);
    var c2 := WithAltitude(c1, build, craft);
    var c3 := WithPosition(c2, build, craft);
    var c4 := WithAirplane(c3, build, craft);
    var c5 := WithAuxiliary(c4, build, craft);
    var c6 := WithSafety(c5, build, craft);
    AttitudeCandidates(build, craft);
    HeadingCandidates(c0, build, craft);
    AltitudeCandidates(c1, build, craft);
    PositionCandidates(c2, build, craft);
    AirplaneCandidates(c3, build, craft);
    AuxiliaryCandidates(c4, build, craft);
    SafetyCandidates(c5, build, craft);
    CameraCandidates(c6, build, craft);
  }

  /** Every box id below `CHECKBOX_ITEM_COUNT` appears in `BuildOrder`. */
  lemma BuildOrderCovers()
    ensures forall id: byte :: id < CheckboxItemCount ==>
      BuildPosition[id] < |BuildOrder| && BuildOrder[BuildPosition[id]] == id
  {
  }

  /** In a sequence without repetitions the last element does not occur
      before. */
  lemma LastIsNew(s: seq<byte>)
    requires Distinct(s) && s != []
    ensures s[|s| - 1] !in s[..|s| - 1]
  {
  }

  /** Chosen ids are ids of candidates. */
  lemma {:induction false} ChosenAreCandidates(cands: seq<Candidate>)
    ensures forall id :: id in Chosen(cands) ==> id in CandidateIds(cands)
    decreases |cands|
  {
    if cands != [] {
      ChosenAreCandidates(cands[..|cands| - 1]);
    }
  }

  /** A wanted candidate's box is chosen. */
  lemma {:induction false} WantedIsChosen(cands: seq<Candidate>, k: nat)
    requires k < |cands| && cands[k].wanted
    ensures cands[k].id in Chosen(cands)
    decreases |cands|
  {
    var init := cands[..|cands| - 1];
    if k < |init| {
      WantedIsChosen(init, k);
    }
  }

  /** With distinct ids, an unwanted candidate's box is not chosen. */
  lemma {:induction false} UnwantedIsNotChosen(cands: seq<Candidate>, k: nat)
    requires Distinct(CandidateIds(cands))
    requires k < |cands| && !cands[k].wanted
    ensures cands[k].id !in Chosen(cands)
    decreases |cands|
  {
    var init, last := cands[..|cands| - 1], cands[|cands| - 1];
    assert CandidateIds(init) == CandidateIds(cands)[..|cands| - 1];
    assert Chosen(cands) == Chosen(init) + Pick(last);
    if k < |init| {
      assert init[k] == cands[k];
      UnwantedIsNotChosen(init, k);
      assert CandidateIds(cands)[k] != CandidateIds(cands)[|cands| - 1];
    } else {
      ChosenAreCandidates(init);
      LastIsNew(CandidateIds(cands));
    }
  }

  /** With distinct ids, candidate `k`'s box is chosen exactly when it is
      wanted. */
  lemma {:induction false} ChosenAt(cands: seq<Candidate>, k: nat)
    requires Distinct(CandidateIds(cands))
    requires k < |cands|
    ensures cands[k].id in Chosen(cands) <==> cands[k].wanted
  {
    if cands[k].wanted {
      WantedIsChosen(cands, k);
    } else {
      UnwantedIsNotChosen(cands, k);
    }
  }

  /** With distinct ids nothing is chosen twice, and no more boxes are
      chosen than there are candidates. */
  lemma {:induction false} ChosenDistinct(cands: seq<Candidate>)
    requires Distinct(CandidateIds(cands))
    ensures Distinct(Chosen(cands))
    ensures |Chosen(cands)| <= |cands|
    decreases |cands|
  {
    if cands != [] {
      var init := cands[..|cands| - 1];
      assert CandidateIds(init) == CandidateIds(cands)[..|cands| - 1];
      ChosenDistinct(init);
      ChosenAreCandidates(init);
      LastIsNew(CandidateIds(cands));
    }
  }

  /** A wanted first candidate is chosen first. */
  lemma {:induction false} ChosenHead(cands: seq<Candidate>)
    requires cands != [] && cands[0].wanted
    ensures Chosen(cands) != [] && Chosen(cands)[0] == cands[0].id
    decreases |cands|
  {
    if |cands| > 1 {
      ChosenHead(cands[..|cands| - 1]);
    }
  }

  /** A box is active exactly when the configuration calls for it. */
  lemma ActiveBoxMembership(build: BuildOptions, craft: Craft, id: byte)
    ensures id in ActiveBoxList(build, craft) <==> Wanted(build, craft, id)
  {
    var cands := Candidates(build, craft);
    CandidatesFollowBuildOrder(build, craft);
    BuildOrderDistinct();
    ChosenAreCandidates(cands);
    if id < CheckboxItemCount {
      BuildOrderCovers();
      ChosenAt(cands, BuildPosition[id]);
    }
  }

  /** The builder puts `BOXARM` first, appends each box id at most once,
      so at most `CHECKBOX_ITEM_COUNT` of them, and only ids below
      `CHECKBOX_ITEM_COUNT`. */
  lemma ActiveBoxListShape(build: BuildOptions, craft: Craft)
    ensures ActiveBoxList(build, craft) != [] && ActiveBoxList(build, craft)[0] == BoxArm
    ensures Distinct(ActiveBoxList(build, craft))
    ensures |ActiveBoxList(build, craft)| <= CheckboxItemCount
    ensures forall id :: id in ActiveBoxList(build, craft) ==> id < CheckboxItemCount
  {
    var cands := Candidates(build, craft);
    CandidatesFollowBuildOrder(build, craft);
    BuildOrderIsPermutation();
    BuildOrderDistinct();
    ChosenDistinct(cands);
    ChosenAreCandidates(cands);
    assert cands[0].wanted == Wanted(build, craft, BoxArm);
    ChosenHead(cands);
  }

  /** `BOXARM`, `BOXHEADINGHOLD`, `BOXBEEPERON`, `BOXOSD`,
      `BOXKILLSWITCH` and `BOXFAILSAFE` are active in every
      configuration. */
  lemma MandatoryBoxes(build: BuildOptions, craft: Craft)
    ensures BoxArm in ActiveBoxList(build, craft)
    ensures BoxHeadingHold in ActiveBoxList(build, craft)
    ensures BoxBeeperOn in ActiveBoxList(build, craft)
    ensures BoxOsd in ActiveBoxList(build, craft)
    ensures BoxKillSwitch in ActiveBoxList(build, craft)
    ensures BoxFailsafe in ActiveBoxList(build, craft)
  {
    ActiveBoxMembership(build, craft, BoxArm);
    ActiveBoxMembership(build, craft, BoxHeadingHold);
    ActiveBoxMembership(build, craft, BoxBeeperOn);
    ActiveBoxMembership(build, craft, BoxOsd);
    ActiveBoxMembership(build, craft, BoxKillSwitch);
    ActiveBoxMembership(build, craft, BoxFailsafe);
  }

  // ---------------------------------------------------------------
  // The MSP_BOXNAMES and MSP_BOXIDS replies

  /** `BOX_SUFFIX`, the `';'` that closes each name in the reply. */
  const BoxSuffix: byte := 0x3B

  /** `BOX_SUFFIX_LEN`. */
  const BoxSuffixLen: nat := 1

  /** A name as the bytes `strlen` counts and `sbufWriteData` copies. */
  function NameBytes(name: string): (r: seq<byte>)
    ensures |r| == |name|
    ensures forall j :: 0 <= j < |name| ==> r[j] == ToByte(name[j] as int)
  {
    if name == [] then [] else [ToByte(name[0] as int)] + NameBytes(name[1..])
  }

  /** What one active box id adds to the MSP_BOXNAMES reply: the name of
      the entry `findBoxByActiveBoxId` finds and the suffix, nothing when it
      finds none. A nameless entry adds nothing either: the C code would
      pass its NULL name to `strlen`, and the active ids never reach the
      sentinel, the only such entry. */
  function NameEntry(boxes: seq<Box>, id: byte): seq<byte>
  {
    match BoxWithId(boxes, id, 0)
    case None => []
    case Some(i) =>
      match boxes[i].boxName
      case None => []
      case Some(name) => NameBytes(name) + [BoxSuffix]
  }

  /** The MSP_BOXNAMES reply for the active ids `ids`. */
  function NamesReply(boxes: seq<Box>, ids: seq<byte>): seq<byte>
    decreases |ids|
  {
    if ids == [] then [] else NameEntry(boxes, ids[0]) + NamesReply(boxes, ids[1..])
  }

  /** The reply for two runs of ids is the two replies one after the
      other; the loops of `serializeBoxNamesReply` build it id by id. */
  lemma {:induction false} NamesReplyAppend(boxes: seq<Box>, ids: seq<byte>, more: seq<byte>)
    ensures NamesReply(boxes, ids + more) == NamesReply(boxes, ids) + NamesReply(boxes, more)
    decreases |ids|
  {
    if ids == [] {
      assert ids + more == more;
    } else {
      assert (ids + more)[1..] == ids[1..] + more;
      NamesReplyAppend(boxes, ids[1..], more);
    }
  }

  /** One step of the loops of `serializeBoxNamesReply`: the reply for
      the first `i + 1` ids extends the one for the first `i` by the
      entry of id `i`, and stays within the whole reply. */
  lemma NamesReplyStep(boxes: seq<Box>, ids: seq<byte>, i: nat)
    requires i < |ids|
    ensures NamesReply(boxes, ids[..i + 1]) == NamesReply(boxes, ids[..i]) + NameEntry(boxes, ids[i])
    ensures |NamesReply(boxes, ids[..i + 1])| <= |NamesReply(boxes, ids)|
  {
    var before, one, after := ids[..i], [ids[i]], ids[i + 1..];
    assert ids[..i + 1] == before + one;
    assert ids == ids[..i + 1] + after;
    assert one[1..] == [];
    assert NamesReply(boxes, one) == NameEntry(boxes, ids[i]) + NamesReply(boxes, []);
    NamesReplyAppend(boxes, before, one);
    NamesReplyAppend(boxes, ids[..i + 1], after);
  }

  /** The entry of a named box is its name and the suffix. */
  lemma NamedEntry(boxes: seq<Box>, id: byte)
    requires IdsLabelEntries(boxes) && id < CheckboxItemCount
    requires boxes[EntryOf(boxes, id)].boxName.Some?
    ensures NameEntry(boxes, id) == NameBytes(boxes[EntryOf(boxes, id)].boxName.value) + [BoxSuffix]
  {
  }

  /** The position of the first suffix byte in `reply` at or after
      `from`, or `|reply|` when there is none. */
  function SuffixAt(reply: seq<byte>, from: nat): (r: nat)
    requires from <= |reply|
    ensures from <= r <= |reply|
    ensures r < |reply| ==> reply[r] == BoxSuffix
    ensures forall j :: from <= j < r ==> reply[j] != BoxSuffix
    decreases |reply| - from
  {
    if from == |reply| || reply[from] == BoxSuffix then from else SuffixAt(reply, from + 1)
  }

  /** A configurator's reading of the MSP_BOXNAMES reply: the names
      between the suffixes. */
  function SplitNames(reply: seq<byte>): seq<seq<byte>>
    decreases |reply|
  {
    if reply == [] then []
    else
      var n := SuffixAt(reply, 0);
      [reply[..n]] + (if n < |reply| then SplitNames(reply[n + 1..]) else [])
  }

  /** A name without a suffix byte is read back whole. */
  lemma SplitEntry(name: seq<byte>, rest: seq<byte>)
    requires forall j :: 0 <= j < |name| ==> name[j] != BoxSuffix
    ensures SplitNames(name + [BoxSuffix] + rest) == [name] + SplitNames(rest)
  {
    var reply := name + [BoxSuffix] + rest;
    var n := SuffixAt(reply, 0);
    assert reply[|name|] == BoxSuffix;
    assert n == |name|;
    assert reply[..n] == name;
    assert reply[n + 1..] == rest;
  }

  /** A name of 7-bit characters other than `';'`. */
  predicate PlainName(name: string)
  {
    forall j :: 0 <= j < |name| ==> name[j] != ';' && name[j] as int < 0x80
  }

  /** A plain name's bytes hold no suffix. */
  lemma PlainNameBytes(name: string)
    requires PlainName(name)
    ensures forall j :: 0 <= j < |NameBytes(name)| ==> NameBytes(name)[j] != BoxSuffix
  {
  }

  /** The table entries from `lo` to `hi` carry plain names. */
  predicate PlainNamesBetween(boxes: seq<Box>, lo: nat, hi: nat)
  {
    forall i :: lo <= i < hi && i < |boxes| ==>
      boxes[i].boxName.Some? && PlainName(boxes[i].boxName.value)
  }

  lemma PlainNamesAttitude()
    ensures PlainNamesBetween(Boxes, 0, 8)
  {
  }

  lemma PlainNamesNavigation()
    ensures PlainNamesBetween(Boxes, 8, 16)
  {
  }

  lemma PlainNamesAuxiliary()
    ensures PlainNamesBetween(Boxes, 16, 24)
  {
  }

  lemma PlainNamesAirplane()
    ensures PlainNamesBetween(Boxes, 24, 28)
  {
  }

  lemma PlainNamesCameras()
    ensures PlainNamesBetween(Boxes, 28, 32)
  {
  }

  /** Every named entry of `boxes` is named plainly, so the names in the
      MSP_BOXNAMES reply cannot run together. */
  lemma TableNamesArePlain()
    ensures PlainNamesBetween(Boxes, 0, CheckboxItemCount)
  {
    PlainNamesAttitude();
    PlainNamesNavigation();
    PlainNamesAuxiliary();
    PlainNamesAirplane();
    PlainNamesCameras();
  }

  /** A configurator splitting the MSP_BOXNAMES reply at the suffixes gets
      back, in order, the names of the boxes the ids label. */
  lemma {:induction false} NamesReplyRoundTrip(boxes: seq<Box>, ids: seq<byte>)
    requires IdsLabelEntries(boxes)
    requires PlainNamesBetween(boxes, 0, CheckboxItemCount)
    requires forall k :: 0 <= k < |ids| ==> ids[k] < CheckboxItemCount
    ensures |SplitNames(NamesReply(boxes, ids))| == |ids|
    ensures forall k :: 0 <= k < |ids| ==>
      boxes[EntryOf(boxes, ids[k])].boxName.Some? &&
      SplitNames(NamesReply(boxes, ids))[k] == NameBytes(boxes[EntryOf(boxes, ids[k])].boxName.value)
    decreases |ids|
  {
    if ids != [] {
      var id := ids[0];
      var rest := ids[1..];
      var tail := NamesReply(boxes, rest);
      var e := EntryOf(boxes, id);
      var name := NameBytes(boxes[e].boxName.value);
      NamedEntry(boxes, id);
      PlainNameBytes(boxes[e].boxName.value);
      NamesReplyRoundTrip(boxes, rest);
      SplitEntry(name, tail);
      var split := SplitNames(NamesReply(boxes, ids));
      assert split == [name] + SplitNames(tail);
      forall k | 0 <= k < |ids|
        ensures boxes[EntryOf(boxes, ids[k])].boxName.Some?
             && split[k] == NameBytes(boxes[EntryOf(boxes, ids[k])].boxName.value)
      {
        if k > 0 {
          assert ids[k] == rest[k - 1];
        }
      }
    }
  }

  /** What one active box id adds to the MSP_BOXIDS reply: the permanent
      id of the entry `findBoxByActiveBoxId` finds, nothing when it finds
      none. */
  function PermanentIdEntry(boxes: seq<Box>, id: byte): seq<byte>
  {
    match BoxWithId(boxes, id, 0)
    case None => []
    case Some(i) => [boxes[i].permanentId]
  }

  /** The MSP_BOXIDS reply for the active ids `ids`. */
  function BoxReply(boxes: seq<Box>, ids: seq<byte>): seq<byte>
    decreases |ids|
  {
    if ids == [] then [] else BoxReply(boxes, ids[..|ids| - 1]) + PermanentIdEntry(boxes, ids[|ids| - 1])
  }

  /** When every active id labels an entry, the MSP_BOXIDS reply has one
      byte per active box, the permanent id of the entry it labels. */
  lemma {:induction false} BoxReplyIds(boxes: seq<Box>, ids: seq<byte>)
    requires IdsLabelEntries(boxes)
    requires forall k :: 0 <= k < |ids| ==> ids[k] < CheckboxItemCount
    ensures |BoxReply(boxes, ids)| == |ids|
    ensures forall k :: 0 <= k < |ids| ==>
      BoxReply(boxes, ids)[k] == boxes[EntryOf(boxes, ids[k])].permanentId
    decreases |ids|
  {
    if ids != [] {
      var init := ids[..|ids| - 1];
      assert forall k :: 0 <= k < |init| ==> init[k] == ids[k];
      BoxReplyIds(boxes, init);
      var e := EntryOf(boxes, ids[|ids| - 1]);
      var before := BoxReply(boxes, init);
      var reply := BoxReply(boxes, ids);
      assert reply == before + [boxes[e].permanentId];
      forall k | 0 <= k < |ids|
        ensures reply[k] == boxes[EntryOf(boxes, ids[k])].permanentId
      {
        if k < |init| {
          assert reply[k] == before[k];
        }
      }
    }
  }

  /** When the permanent ids also rise along the table, the
      configurator's `findBoxByPermanentId` maps each byte of the reply
      back to the box it came from. */
  lemma BoxReplyRoundTrip(boxes: seq<Box>, ids: seq<byte>)
    requires IdsLabelEntries(boxes) && PermanentIdsRise(boxes)
    requires forall k :: 0 <= k < |ids| ==> ids[k] < CheckboxItemCount
    ensures |BoxReply(boxes, ids)| == |ids|
    ensures forall k :: 0 <= k < |ids| ==>
      BoxWithPermanentId(boxes, BoxReply(boxes, ids)[k], 0) == Some(EntryOf(boxes, ids[k]))
  {
    BoxReplyIds(boxes, ids);
    forall k | 0 <= k < |ids|
      ensures BoxWithPermanentId(boxes, BoxReply(boxes, ids)[k], 0) == Some(EntryOf(boxes, ids[k]))
    {
      FindByPermanentIdRoundTrip(boxes, EntryOf(boxes, ids[k]));
    }
  }

  /** For the `boxes` table and any configuration, the MSP_BOXNAMES
      reply reads back as the names of the active boxes, in the order
      `initActiveBoxIds` listed them. */
  lemma ActiveNamesReadBack(build: BuildOptions, craft: Craft)
    ensures |SplitNames(NamesReply(Boxes, ActiveBoxList(build, craft)))| == |ActiveBoxList(build, craft)|
    ensures forall k :: 0 <= k < |ActiveBoxList(build, craft)| ==>
      var id := ActiveBoxList(build, craft)[k];
      id < CheckboxItemCount && IdsLabelEntries(Boxes) &&
      Boxes[EntryOf(Boxes, id)].boxName.Some? &&
      SplitNames(NamesReply(Boxes, ActiveBoxList(build, craft)))[k]
        == NameBytes(Boxes[EntryOf(Boxes, id)].boxName.value)
  {
    var ids := ActiveBoxList(build, craft);
    ActiveBoxListShape(build, craft);
    assert forall k :: 0 <= k < |ids| ==> ids[k] in ids;
    BoxesIsBoxTable();
    TableNamesArePlain();
    NamesReplyRoundTrip(Boxes, ids);
  }

  /** For the `boxes` table and any configuration, the MSP_BOXIDS reply
      has one permanent id per active box, and each maps back to its box. */
  lemma ActiveIdsReadBack(build: BuildOptions, craft: Craft)
    ensures |BoxReply(Boxes, ActiveBoxList(build, craft))| == |ActiveBoxList(build, craft)|
    ensures forall k :: 0 <= k < |ActiveBoxList(build, craft)| ==>
      var id := ActiveBoxList(build, craft)[k];
      id < CheckboxItemCount && IdsLabelEntries(Boxes) &&
      BoxWithPermanentId(Boxes, BoxReply(Boxes, ActiveBoxList(build, craft))[k], 0)
        == Some(EntryOf(Boxes, id))
  {
    var ids := ActiveBoxList(build, craft);
    ActiveBoxListShape(build, craft);
    assert forall k :: 0 <= k < |ids| ==> ids[k] in ids;
    BoxesIsBoxTable();
    BoxReplyRoundTrip(Boxes, ids);
  }

  // ---------------------------------------------------------------
  // MSP_STATUS: the mode flags and the sensor status

  /** The flight modes `packBoxModeFlags` reads (`FLIGHT_MODE(...)`). */
  datatype FlightMode =
    | AngleMode | HorizonMode | HeadingMode | HeadFreeMode | ManualMode | FailsafeMode
    | NavAltHoldMode | NavPosHoldMode | NavRthMode | NavWpMode | Flaperon | TurnAssistant
    | NavLaunchMode | AutoTune

  /** The run-time state `packBoxModeFlags` reads: the flight modes that
      are on, the boxes whose RC switch is on (`IS_RC_MODE_ACTIVE`) and the
      `ARMED` arming flag. */
  datatype FlightState = FlightState(flightModes: set<FlightMode>, rcModes: set<byte>, armed: bool)

  /** The boxes whose flag is their RC switch. */
  const RcModeBoxes: set<byte> := {BoxHeadAdj, BoxCamStab, BoxBeeperOn, BoxLedLow, BoxLights, BoxOsd, BoxTelemetry, BoxBlackbox, BoxAirMode, BoxGcsNav, BoxSurface, BoxAutoTrim, BoxKillSwitch, BoxHomeReset, BoxCamera1, BoxCamera2, BoxCamera3}

  /** The flight mode that stands for a box, when one does. */
  function BoxFlightMode(id: byte): Option<FlightMode>
  {
    if id == BoxAngle then Some(AngleMode)
    else if id == BoxHorizon then Some(HorizonMode)
    else if id == BoxHeadingHold then Some(HeadingMode)
    else if id == BoxHeadFree then Some(HeadFreeMode)
    else if id == BoxManual then Some(ManualMode)
    else if id == BoxFailsafe then Some(FailsafeMode)
    else if id == BoxNavAltHold then Some(NavAltHoldMode)
    else if id == BoxNavPosHold then Some(NavPosHoldMode)
    else if id == BoxNavRth then Some(NavRthMode)
    else if id == BoxNavWp then Some(NavWpMode)
    else if id == BoxFlaperon then Some(Flaperon)
    else if id == BoxTurnAssist then Some(TurnAssistant)
    else if id == BoxNavLaunch then Some(NavLaunchMode)
    else if id == BoxAutoTune then Some(AutoTune)
    else None
  }

  /** Whether the mode of box `id` is on, as `packBoxModeFlags` decides it
      for its local `activeBoxes` array: ARM follows the arming flag, the
      RC-switch boxes their switch, the others their flight mode, and
      FLAPERON and TURN ASSIST only in builds that have them. */
  predicate ModeActive(build: BuildOptions, state: FlightState, id: byte)
  {
    if id == BoxArm then state.armed
    else if id in RcModeBoxes then id in state.rcModes
    else match BoxFlightMode(id)
      case None => false
      case Some(mode) =>
        mode in state.flightModes
        && (mode == Flaperon ==> build.flmFlaperon)
        && (mode == TurnAssistant ==> build.flmTurnAssist)
  }

  /** `marked` plus `index` when `condition` holds. */
  function Mark(marked: set<byte>, condition: bool, index: byte): set<byte>
  {
    if condition then marked + {index} else marked
  }

  /** `marked` with the marks of lines 258-265: the attitude, heading, camera-stabilisation, manual and beeper boxes. */
  function AttitudeModeMarks(marked: set<byte>, build: BuildOptions, state: FlightState): set<byte>
  {
    var m := marked;
    var m := Mark(m, AngleMode in state.flightModes, BoxAngle);
    var m := Mark(m, HorizonMode in state.flightModes, BoxHorizon);
    var m := Mark(m, HeadingMode in state.flightModes, BoxHeadingHold);
    var m := Mark(m, HeadFreeMode in state.flightModes, BoxHeadFree);
    var m := Mark(m, BoxHeadAdj in state.rcModes, BoxHeadAdj);
    var m := Mark(m, BoxCamStab in state.rcModes, BoxCamStab);
    var m := Mark(m, ManualMode in state.flightModes, BoxManual);
    var m := Mark(m, BoxBeeperOn in state.rcModes, BoxBeeperOn);
    m
  }

  /** `marked` with the marks of lines 266-273: the LED, lights, OSD, telemetry, arming, blackbox, failsafe and altitude-hold boxes. */
  function AuxiliaryModeMarks(marked: set<byte>, build: BuildOptions, state: FlightState): set<byte>
  {
    var m := marked;
    var m := Mark(m, BoxLedLow in state.rcModes, BoxLedLow);
    var m := Mark(m, BoxLights in state.rcModes, BoxLights);
    var m := Mark(m, BoxOsd in state.rcModes, BoxOsd);
    var m := Mark(m, BoxTelemetry in state.rcModes, BoxTelemetry);
    var m := Mark(m, state.armed, BoxArm);
    var m := Mark(m, BoxBlackbox in state.rcModes, BoxBlackbox);
    var m := Mark(m, FailsafeMode in state.flightModes, BoxFailsafe);
    var m := Mark(m, NavAltHoldMode in state.flightModes, BoxNavAltHold);
    m
  }

  /** `marked` with the marks of lines 274-285: the navigation, air-mode and surface boxes, and FLAPERON and TURN ASSIST in builds that have them. */
  function NavigationModeMarks(marked: set<byte>, build: BuildOptions, state: FlightState): set<byte>
  {
    var m := marked;
    var m := Mark(m, NavPosHoldMode in state.flightModes, BoxNavPosHold);
    var m := Mark(m, NavRthMode in state.flightModes, BoxNavRth);
    var m := Mark(m, NavWpMode in state.flightModes, BoxNavWp);
    var m := Mark(m, BoxAirMode in state.rcModes, BoxAirMode);
    var m := Mark(m, BoxGcsNav in state.rcModes, BoxGcsNav);
    var m := Mark(m, BoxSurface in state.rcModes, BoxSurface);
    var m := if build.flmFlaperon then Mark(m, Flaperon in state.flightModes, BoxFlaperon) else m;
    var m := if build.flmTurnAssist then Mark(m, TurnAssistant in state.flightModes, BoxTurnAssist) else m;
    m
  }

  /** `marked` with the marks of lines 286-293: the launch, autotune, autotrim, kill-switch, home-reset and camera boxes. */
  function AirplaneModeMarks(marked: set<byte>, build: BuildOptions, state: FlightState): set<byte>
  {
    var m := marked;
    var m := Mark(m, NavLaunchMode in state.flightModes, BoxNavLaunch);
    var m := Mark(m, AutoTune in state.flightModes, BoxAutoTune);
    var m := Mark(m, BoxAutoTrim in state.rcModes, BoxAutoTrim);
    var m := Mark(m, BoxKillSwitch in state.rcModes, BoxKillSwitch);
    var m := Mark(m, BoxHomeReset in state.rcModes, BoxHomeReset);
    var m := Mark(m, BoxCamera1 in state.rcModes, BoxCamera1);
    var m := Mark(m, BoxCamera2 in state.rcModes, BoxCamera2);
    var m := Mark(m, BoxCamera3 in state.rcModes, BoxCamera3);
    m
  }

  /** The boxes `packBoxModeFlags` marks in its local array. */
  function ModeMarks(build: BuildOptions, state: FlightState): set<byte>
  {
    var attitude := AttitudeModeMarks({}, build, state);
    var auxiliary := AuxiliaryModeMarks(attitude, build, state);
    var navigation := NavigationModeMarks(auxiliary, build, state);
    AirplaneModeMarks(navigation, build, state)
  }

  /** Each block of marks adds exactly its boxes whose mode is on. */
  lemma AttitudeMarksMeaning(marked: set<byte>, build: BuildOptions, state: FlightState, id: byte)
    ensures id in AttitudeModeMarks(marked, build, state) <==>
      id in marked || (id in {BoxAngle, BoxHorizon, BoxHeadingHold, BoxHeadFree, BoxHeadAdj, BoxCamStab, BoxManual, BoxBeeperOn} && ModeActive(build, state, id))
  {
  }

  /** Each block of marks adds exactly its boxes whose mode is on. */
  lemma AuxiliaryMarksMeaning(marked: set<byte>, build: BuildOptions, state: FlightState, id: byte)
    ensures id in AuxiliaryModeMarks(marked, build, state) <==>
      id in marked || (id in {BoxLedLow, BoxLights, BoxOsd, BoxTelemetry, BoxArm, BoxBlackbox, BoxFailsafe, BoxNavAltHold} && ModeActive(build, state, id))
  {
  }

  /** Each block of marks adds exactly its boxes whose mode is on. */
  lemma NavigationMarksMeaning(marked: set<byte>, build: BuildOptions, state: FlightState, id: byte)
    ensures id in NavigationModeMarks(marked, build, state) <==>
      id in marked || (id in {BoxNavPosHold, BoxNavRth, BoxNavWp, BoxAirMode, BoxGcsNav, BoxSurface, BoxFlaperon, BoxTurnAssist} && ModeActive(build, state, id))
  {
  }

  /** Each block of marks adds exactly its boxes whose mode is on. */
  lemma AirplaneMarksMeaning(marked: set<byte>, build: BuildOptions, state: FlightState, id: byte)
    ensures id in AirplaneModeMarks(marked, build, state) <==>
      id in marked || (id in {BoxNavLaunch, BoxAutoTune, BoxAutoTrim, BoxKillSwitch, BoxHomeReset, BoxCamera1, BoxCamera2, BoxCamera3} && ModeActive(build, state, id))
  {
  }

  /** The local array ends up marked at exactly the boxes whose mode is
      on. */
  lemma ModeMarksMeaning(build: BuildOptions, state: FlightState, id: byte)
    ensures id in ModeMarks(build, state) <==> id < CheckboxItemCount && ModeActive(build, state, id)
  {
    var attitude := AttitudeModeMarks({}, build, state);
    var auxiliary := AuxiliaryModeMarks(attitude, build, state);
    var navigation := NavigationModeMarks(auxiliary, build, state);
    AttitudeMarksMeaning({}, build, state, id);
    AuxiliaryMarksMeaning(attitude, build, state, id);
    NavigationMarksMeaning(auxiliary, build, state, id);
    AirplaneMarksMeaning(navigation, build, state, id);
  }

  /** `activeBoxes` is set exactly at the boxes in `marked`. */
  ghost predicate MarkedAt(activeBoxes: array<bool>, marked: set<byte>)
    reads activeBoxes
  {
    activeBoxes.Length == CheckboxItemCount
    && forall id: byte :: id < CheckboxItemCount ==> (activeBoxes[id] <==> id in marked)
  }

  /** `CHECK_ACTIVE_BOX(condition, index)`: sets `activeBoxes[index]` when
      `condition` holds. */
  method CheckActiveBox(activeBoxes: array<bool>, condition: bool, index: byte, ghost marked: set<byte>)
    returns (ghost markedNow: set<byte>)
    requires MarkedAt(activeBoxes, marked) && index < CheckboxItemCount
    modifies activeBoxes
    ensures markedNow == Mark(marked, condition, index)
    ensures MarkedAt(activeBoxes, markedNow)
  {
    markedNow := Mark(marked, condition, index);
    if condition {
      activeBoxes[index] := true;
    }
  }

  /** Lines 258-265. */
  method MarkAttitudeModes(activeBoxes: array<bool>, build: BuildOptions, state: FlightState,
                    ghost marked: set<byte>)
    returns (ghost markedNow: set<byte>)
    requires MarkedAt(activeBoxes, marked)
    modifies activeBoxes
    ensures markedNow == AttitudeModeMarks(marked, build, state)
    ensures MarkedAt(activeBoxes, markedNow)
  {
    markedNow := marked;
    markedNow := CheckActiveBox(activeBoxes, AngleMode in state.flightModes, BoxAngle, markedNow);
    markedNow := CheckActiveBox(activeBoxes, HorizonMode in state.flightModes, BoxHorizon, markedNow);
    markedNow := CheckActiveBox(activeBoxes, HeadingMode in state.flightModes, BoxHeadingHold, markedNow);
    markedNow := CheckActiveBox(activeBoxes, HeadFreeMode in state.flightModes, BoxHeadFree, markedNow);
    markedNow := CheckActiveBox(activeBoxes, BoxHeadAdj in state.rcModes, BoxHeadAdj, markedNow);
    markedNow := CheckActiveBox(activeBoxes, BoxCamStab in state.rcModes, BoxCamStab, markedNow);
    markedNow := CheckActiveBox(activeBoxes, ManualMode in state.flightModes, BoxManual, markedNow);
    markedNow := CheckActiveBox(activeBoxes, BoxBeeperOn in state.rcModes, BoxBeeperOn, markedNow);
  }

  /** Lines 266-273. */
  method MarkAuxiliaryModes(activeBoxes: array<bool>, build: BuildOptions, state: FlightState,
                    ghost marked: set<byte>)
    returns (ghost markedNow: set<byte>)
    requires MarkedAt(activeBoxes, marked)
    modifies activeBoxes
    ensures markedNow == AuxiliaryModeMarks(marked, build, state)
    ensures MarkedAt(activeBoxes, markedNow)
  {
    markedNow := marked;
    markedNow := CheckActiveBox(activeBoxes, BoxLedLow in state.rcModes, BoxLedLow, markedNow);
    markedNow := CheckActiveBox(activeBoxes, BoxLights in state.rcModes, BoxLights, markedNow);
    markedNow := CheckActiveBox(activeBoxes, BoxOsd in state.rcModes, BoxOsd, markedNow);
    markedNow := CheckActiveBox(activeBoxes, BoxTelemetry in state.rcModes, BoxTelemetry, markedNow);
    markedNow := CheckActiveBox(activeBoxes, state.armed, BoxArm, markedNow);
    markedNow := CheckActiveBox(activeBoxes, BoxBlackbox in state.rcModes, BoxBlackbox, markedNow);
    markedNow := CheckActiveBox(activeBoxes, FailsafeMode in state.flightModes, BoxFailsafe, markedNow);
    markedNow := CheckActiveBox(activeBoxes, NavAltHoldMode in state.flightModes, BoxNavAltHold, markedNow);
  }

  /** Lines 274-285. */
  method MarkNavigationModes(activeBoxes: array<bool>, build: BuildOptions, state: FlightState,
                    ghost marked: set<byte>)
    returns (ghost markedNow: set<byte>)
    requires MarkedAt(activeBoxes, marked)
    modifies activeBoxes
    ensures markedNow == NavigationModeMarks(marked, build, state)
    ensures MarkedAt(activeBoxes, markedNow)
  {
    markedNow := marked;
    markedNow := CheckActiveBox(activeBoxes, NavPosHoldMode in state.flightModes, BoxNavPosHold, markedNow);
    markedNow := CheckActiveBox(activeBoxes, NavRthMode in state.flightModes, BoxNavRth, markedNow);
    markedNow := CheckActiveBox(activeBoxes, NavWpMode in state.flightModes, BoxNavWp, markedNow);
    markedNow := CheckActiveBox(activeBoxes, BoxAirMode in state.rcModes, BoxAirMode, markedNow);
    markedNow := CheckActiveBox(activeBoxes, BoxGcsNav in state.rcModes, BoxGcsNav, markedNow);
    markedNow := CheckActiveBox(activeBoxes, BoxSurface in state.rcModes, BoxSurface, markedNow);
    if build.flmFlaperon {
      markedNow := CheckActiveBox(activeBoxes, Flaperon in state.flightModes, BoxFlaperon, markedNow);
    }
    if build.flmTurnAssist {
      markedNow := CheckActiveBox(activeBoxes, TurnAssistant in state.flightModes, BoxTurnAssist, markedNow);
    }
  }

  /** Lines 286-293. */
  method MarkAirplaneModes(activeBoxes: array<bool>, build: BuildOptions, state: FlightState,
                    ghost marked: set<byte>)
    returns (ghost markedNow: set<byte>)
    requires MarkedAt(activeBoxes, marked)
    modifies activeBoxes
    ensures markedNow == AirplaneModeMarks(marked, build, state)
    ensures MarkedAt(activeBoxes, markedNow)
  {
    markedNow := marked;
    markedNow := CheckActiveBox(activeBoxes, NavLaunchMode in state.flightModes, BoxNavLaunch, markedNow);
    markedNow := CheckActiveBox(activeBoxes, AutoTune in state.flightModes, BoxAutoTune, markedNow);
    markedNow := CheckActiveBox(activeBoxes, BoxAutoTrim in state.rcModes, BoxAutoTrim, markedNow);
    markedNow := CheckActiveBox(activeBoxes, BoxKillSwitch in state.rcModes, BoxKillSwitch, markedNow);
    markedNow := CheckActiveBox(activeBoxes, BoxHomeReset in state.rcModes, BoxHomeReset, markedNow);
    markedNow := CheckActiveBox(activeBoxes, BoxCamera1 in state.rcModes, BoxCamera1, markedNow);
    markedNow := CheckActiveBox(activeBoxes, BoxCamera2 in state.rcModes, BoxCamera2, markedNow);
    markedNow := CheckActiveBox(activeBoxes, BoxCamera3 in state.rcModes, BoxCamera3, markedNow);
  }

  /** The first half of `packBoxModeFlags`: the local `activeBoxes`
      array, cleared, then set for every box whose mode is on. */
  method ActiveModeBoxes(build: BuildOptions, state: FlightState) returns (activeBoxes: array<bool>)
    ensures fresh(activeBoxes) && activeBoxes.Length == CheckboxItemCount
    ensures forall id: byte :: id < CheckboxItemCount ==> activeBoxes[id] == ModeActive(build, state, id)
  {
    activeBoxes := new bool[CheckboxItemCount](_ => false);
    ghost var marked: set<byte> := {};
    marked := MarkAttitudeModes(activeBoxes, build, state, marked);
    marked := MarkAuxiliaryModes(activeBoxes, build, state, marked);
    marked := MarkNavigationModes(activeBoxes, build, state, marked);
    marked := MarkAirplaneModes(activeBoxes, build, state, marked);
    assert marked == ModeMarks(build, state);
    forall id: byte | id < CheckboxItemCount
      ensures activeBoxes[id] == ModeActive(build, state, id)
    {
      ModeMarksMeaning(build, state, id);
    }
  }

  /** After `initActiveBoxIds`, the first bit of the box-mode bitmask is
      the arming flag. */
  lemma ArmFlagLeads(build: BuildOptions, craft: Craft, state: FlightState)
    ensures ActiveBoxList(build, craft) != []
    ensures ModeActive(build, state, ActiveBoxList(build, craft)[0]) == state.armed
  {
    ActiveBoxListShape(build, craft);
  }

  /** `IS_ENABLED(...)`: 1 when the condition holds, 0 otherwise. */
  function IsEnabled(condition: bool): bv16
  {
    if condition then 1 else 0
  }

  /** `packSensorStatus`: the detected sensors at bits 0 to 4 and 6
      (bit 5, the optical-flow sensor, is left out in the source) and bit
      15 set when the hardware is not healthy. */
  function PackSensorStatus(sensors: Sensors, hardwareHealthy: bool): (r: bv16)
    ensures (r & 0x7FA0) == 0
  {
    // Dafny's `|` binds tighter than `<<`, so the shifts are bracketed.
    var sensorStatus :=
      (IsEnabled(sensors.acc) << 0) | (IsEnabled(sensors.baro) << 1) | (IsEnabled(sensors.mag) << 2)
      | (IsEnabled(sensors.gps) << 3) | (IsEnabled(sensors.rangefinder) << 4)
      | (IsEnabled(sensors.pitot) << 6);
    if !hardwareHealthy then sensorStatus | (1 << 15) else sensorStatus
  }

  /** A configurator's reading of the sensor status word. */
  function UnpackSensorStatus(status: bv16): (Sensors, bool)
  {
    (Sensors((status & 0x1) != 0, (status & 0x2) != 0, (status & 0x4) != 0,
             (status & 0x8) != 0, (status & 0x10) != 0, (status & 0x40) != 0),
     (status & 0x8000) == 0)
  }

  /** The sensor status word reads back as the sensors and the health it
      packed. */
  lemma SensorStatusRoundTrip(sensors: Sensors, hardwareHealthy: bool)
    ensures UnpackSensorStatus(PackSensorStatus(sensors, hardwareHealthy)) == (sensors, hardwareHealthy)
  {
  }

  /** Writing a name and then the suffix after `done` extends `done` by
      the whole entry. */
  lemma SuffixedAfter(written0: seq<byte>, done: seq<byte>, name: seq<byte>)
    ensures written0 + done + name + [BoxSuffix] == written0 + (done + (name + [BoxSuffix]))
  {
  }

  /** The body of the second pass of `serializeBoxNamesReply` for the
      `i`-th active id: the box's name and the suffix, when the table has
      the box, after the entries of the ids before it. */
  method WriteBoxName(boxes: seq<Box>, ghost ids: seq<byte>, ghost i: nat, activeBoxId: byte, dst: Stream,
                      ghost written0: seq<byte>, ghost remaining0: nat)
    requires BoxTable(boxes) && i < |ids| && activeBoxId == ids[i] && activeBoxId < CheckboxItemCount
    requires |NamesReply(boxes, ids)| <= remaining0
    requires dst.written == written0 + NamesReply(boxes, ids[..i])
    requires dst.remaining + |NamesReply(boxes, ids[..i])| == remaining0
    modifies dst
    ensures dst.written == written0 + NamesReply(boxes, ids[..i + 1])
    ensures dst.remaining + |NamesReply(boxes, ids[..i + 1])| == remaining0
  {
    ghost var done := NamesReply(boxes, ids[..i]);
    NamesReplyStep(boxes, ids, i);
    var box := FindBoxByActiveBoxId(boxes, activeBoxId);
    ghost var e := EntryOf(boxes, activeBoxId);
    if box.Some? {
      NamedEntry(boxes, activeBoxId);
      var name := NameBytes(boxes[box.value].boxName.value);
      dst.WriteData(name);
      dst.WriteU8(BoxSuffix);
      SuffixedAfter(written0, done, name);
    }
  }

  /** The body of the loop of `serializeBoxReply` for the `i`-th active
      id: the box's permanent id, when the table has the box, after the
      ids before it. */
  method WriteBoxId(boxes: seq<Box>, ghost ids: seq<byte>, ghost i: nat, activeBoxId: byte, dst: Stream,
                    ghost written0: seq<byte>, ghost remaining0: nat)
    requires |boxes| < 0x100 && i < |ids| && activeBoxId == ids[i] && |ids| <= remaining0
    requires dst.written == written0 + BoxReply(boxes, ids[..i])
    requires dst.remaining + |BoxReply(boxes, ids[..i])| == remaining0
    requires |BoxReply(boxes, ids[..i])| <= i
    modifies dst
    ensures dst.written == written0 + BoxReply(boxes, ids[..i + 1])
    ensures dst.remaining + |BoxReply(boxes, ids[..i + 1])| == remaining0
    ensures |BoxReply(boxes, ids[..i + 1])| <= i + 1
  {
    ghost var done := BoxReply(boxes, ids[..i]);
    assert ids[..i + 1][..i] == ids[..i];
    var box := FindBoxByActiveBoxId(boxes, activeBoxId);
    if box.None? {
      return;
    }
    dst.WriteU8(boxes[box.value].permanentId);
    assert written0 + done + [boxes[box.value].permanentId] == written0 + (done + [boxes[box.value].permanentId]);
  }

  /** The module-level `activeBoxIds` array and its fill count. */
  class BoxRegistry {
    const activeBoxIds: array<byte>
    var activeBoxIdCount: nat

    /** The array has its static size and its filled part names boxes of
        the table. */
    ghost predicate Valid()
      reads this, activeBoxIds
    {
      activeBoxIds.Length == CheckboxItemCount
      && activeBoxIdCount <= CheckboxItemCount
      && forall k :: 0 <= k < activeBoxIdCount ==> activeBoxIds[k] < CheckboxItemCount
    }

    /** Static storage starts zeroed, with no box active. */
    constructor ()
      ensures Valid() && activeBoxIdCount == 0
    {
      activeBoxIds := new byte[CheckboxItemCount](_ => 0);
      activeBoxIdCount := 0;
    }

    /** The filled part of `activeBoxIds`. */
    function ActiveIds(): seq<byte>
      reads this, activeBoxIds
      requires activeBoxIdCount <= activeBoxIds.Length
    {
      activeBoxIds[..activeBoxIdCount]
    }

    /** Part way through `initActiveBoxIds`, having dealt with the
        candidates `cands`: the filled part holds the wanted ones among
        them and the rest of the array is still 0xFF. */
    ghost predicate Building(cands: seq<Candidate>)
      reads this, activeBoxIds
    {
      activeBoxIds.Length == CheckboxItemCount
      && activeBoxIdCount <= |cands| <= CheckboxItemCount
      && activeBoxIds[..activeBoxIdCount] == Chosen(cands)
      && forall k :: activeBoxIdCount <= k < activeBoxIds.Length ==> activeBoxIds[k] == 0xFF
    }

    /** `activeBoxIds[activeBoxIdCount++] = id`, reached when `wanted`,
        the condition guarding it, holds. */
    method Append(id: byte, ghost wanted: bool, ghost before: seq<Candidate>)
      returns (ghost after: seq<Candidate>)
      requires Building(before) && |before| < CheckboxItemCount
      requires wanted
      modifies this, activeBoxIds
      ensures after == before + [Candidate(id, wanted)] && Building(after)
    {
      after := before + [Candidate(id, wanted)];
      assert after[..|before|] == before;
      activeBoxIds[activeBoxIdCount] := id;
      activeBoxIdCount := activeBoxIdCount + 1;
    }

    /** The builder passes over `id` because `wanted` is false. */
    lemma Pass(id: byte, wanted: bool, before: seq<Candidate>) returns (after: seq<Candidate>)
      requires Building(before) && |before| < CheckboxItemCount
      requires !wanted
      ensures after == before + [Candidate(id, wanted)] && Building(after)
    {
      after := before + [Candidate(id, wanted)];
      assert after[..|before|] == before;
    }

    /** Lines 151-160: BOXARM, then the attitude boxes when there is an
        accelerometer. */
    method OfferAttitudeBoxes(build: BuildOptions, craft: Craft, ghost before: seq<Candidate>)
      returns (ghost after: seq<Candidate>)
      requires Building(before) && |before| == 0
      modifies this, activeBoxIds
      ensures after == WithAttitude(before, build, craft) && Building(after)
    {
      var acc := craft.sensors.acc;
      after := Append(BoxArm, true, before);
      if acc {
        after := Append(BoxAngle, acc, after);
        after := Append(BoxHorizon, acc, after);
        if build.flmTurnAssist {
          after := Append(BoxTurnAssist, acc && build.flmTurnAssist, after);
        } else {
          after := Pass(BoxTurnAssist, acc && build.flmTurnAssist, after);
        }
      } else {
        after := Pass(BoxAngle, acc, after);
        after := Pass(BoxHorizon, acc, after);
        after := Pass(BoxTurnAssist, acc && build.flmTurnAssist, after);
      }
    }

    /** Lines 162-171: AIR MODE unless the feature is on, HEADING HOLD,
        and the head-free boxes. */
    method OfferHeadingBoxes(build: BuildOptions, craft: Craft, ghost before: seq<Candidate>)
      returns (ghost after: seq<Candidate>)
      requires Building(before) && |before| == 4
      modifies this, activeBoxIds
      ensures after == WithHeading(before, build, craft) && Building(after)
    {
      var airMode := craft.features.airMode;
      if !airMode {
        after := Append(BoxAirMode, !airMode, before);
      } else {
        after := Pass(BoxAirMode, !airMode, before);
      }
      after := Append(BoxHeadingHold, true, after);
      var heading := craft.sensors.acc || craft.sensors.mag;
      if heading {
        after := Append(BoxHeadFree, heading, after);
        after := Append(BoxHeadAdj, heading, after);
      } else {
        after := Pass(BoxHeadFree, heading, after);
        after := Pass(BoxHeadAdj, heading, after);
      }
    }

    /** Lines 173-180: CAMSTAB and the altitude boxes. */
    method OfferAltitudeBoxes(build: BuildOptions, craft: Craft, ghost before: seq<Candidate>)
      returns (ghost after: seq<Candidate>)
      requires Building(before) && |before| == 8
      modifies this, activeBoxIds
      ensures after == WithAltitude(before, build, craft) && Building(after)
    {
      var servoTilt := craft.features.servoTilt;
      if servoTilt {
        after := Append(BoxCamStab, servoTilt, before);
      } else {
        after := Pass(BoxCamStab, servoTilt, before);
      }
      var altitude := AltitudeAvailable(build, craft);
      if altitude {
        after := Append(BoxNavAltHold, altitude, after);
        after := Append(BoxSurface, altitude, after);
      } else {
        after := Pass(BoxNavAltHold, altitude, after);
        after := Pass(BoxSurface, altitude, after);
      }
    }

    /** Lines 182-188: the position-holding navigation boxes. */
    method OfferPositionBoxes(build: BuildOptions, craft: Craft, ghost before: seq<Candidate>)
      returns (ghost after: seq<Candidate>)
      requires Building(before) && |before| == 11
      modifies this, activeBoxIds
      ensures after == WithPosition(before, build, craft) && Building(after)
    {
      var position := PositionAvailable(build, craft);
      if position {
        after := Append(BoxNavPosHold, position, before);
        after := Append(BoxNavRth, position, after);
        after := Append(BoxNavWp, position, after);
        after := Append(BoxHomeReset, position, after);
        after := Append(BoxGcsNav, position, after);
      } else {
        after := Pass(BoxNavPosHold, position, before);
        after := Pass(BoxNavRth, position, after);
        after := Pass(BoxNavWp, position, after);
        after := Pass(BoxHomeReset, position, after);
        after := Pass(BoxGcsNav, position, after);
      }
    }

    /** Lines 191-210: the fixed-wing boxes and FLAPERON. */
    method OfferAirplaneBoxes(build: BuildOptions, craft: Craft, ghost before: seq<Candidate>)
      returns (ghost after: seq<Candidate>)
      requires Building(before) && |before| == 16
      modifies this, activeBoxIds
      ensures after == WithAirplane(before, build, craft) && Building(after)
    {
      var w := craft.fixedWing;
      var fwLaunch := craft.features.fwLaunch;
      if w {
        after := Append(BoxManual, w, before);
        if !fwLaunch {
          after := Append(BoxNavLaunch, w && !fwLaunch, after);
        } else {
          after := Pass(BoxNavLaunch, w && !fwLaunch, after);
        }
        after := Append(BoxAutoTrim, w, after);
        if build.autotuneFixedWing {
          after := Append(BoxAutoTune, w && build.autotuneFixedWing, after);
        } else {
          after := Pass(BoxAutoTune, w && build.autotuneFixedWing, after);
        }
      } else {
        after := Pass(BoxManual, w, before);
        after := Pass(BoxNavLaunch, w && !fwLaunch, after);
        after := Pass(BoxAutoTrim, w, after);
        after := Pass(BoxAutoTune, w && build.autotuneFixedWing, after);
      }
      var flaperon := build.useServos && craft.flaperonAvailable;
      if flaperon {
        after := Append(BoxFlaperon, flaperon, after);
      } else {
        after := Pass(BoxFlaperon, flaperon, after);
      }
    }

    /** Lines 212-224: BEEPER ON, LIGHTS, LED LOW and OSD. */
    method OfferAuxiliaryBoxes(build: BuildOptions, craft: Craft, ghost before: seq<Candidate>)
      returns (ghost after: seq<Candidate>)
      requires Building(before) && |before| == 21
      modifies this, activeBoxIds
      ensures after == WithAuxiliary(before, build, craft) && Building(after)
    {
      after := Append(BoxBeeperOn, true, before);
      if build.useLights {
        after := Append(BoxLights, build.useLights, after);
      } else {
        after := Pass(BoxLights, build.useLights, after);
      }
      var ledLow := build.useLedStrip && craft.features.ledStrip;
      if ledLow {
        after := Append(BoxLedLow, ledLow, after);
      } else {
        after := Pass(BoxLedLow, ledLow, after);
      }
      after := Append(BoxOsd, true, after);
    }

    /** Lines 226-238: TELEMETRY, BLACKBOX, KILLSWITCH and FAILSAFE. */
    method OfferSafetyBoxes(build: BuildOptions, craft: Craft, ghost before: seq<Candidate>)
      returns (ghost after: seq<Candidate>)
      requires Building(before) && |before| == 25
      modifies this, activeBoxIds
      ensures after == WithSafety(before, build, craft) && Building(after)
    {
      var f := craft.features;
      var telemetry := build.useTelemetry && f.telemetry && craft.telemetrySwitch;
      if telemetry {
        after := Append(BoxTelemetry, telemetry, before);
      } else {
        after := Pass(BoxTelemetry, telemetry, before);
      }
      var blackbox := build.useBlackbox && f.blackbox;
      if blackbox {
        after := Append(BoxBlackbox, blackbox, after);
      } else {
        after := Pass(BoxBlackbox, blackbox, after);
      }
      after := Append(BoxKillSwitch, true, after);
      after := Append(BoxFailsafe, true, after);
    }

    /** Lines 240-244: the camera-control boxes. */
    method OfferCameraBoxes(build: BuildOptions, craft: Craft, ghost before: seq<Candidate>)
      returns (ghost after: seq<Candidate>)
      requires Building(before) && |before| == 29
      modifies this, activeBoxIds
      ensures after == WithCameras(before, build, craft) && Building(after)
    {
      var camera := build.useRcDevice;
      if camera {
        after := Append(BoxCamera1, camera, before);
        after := Append(BoxCamera2, camera, after);
        after := Append(BoxCamera3, camera, after);
      } else {
        after := Pass(BoxCamera1, camera, before);
        after := Pass(BoxCamera2, camera, after);
        after := Pass(BoxCamera3, camera, after);
      }
    }

    /** Lines 151-188: ARM and the attitude, heading and navigation boxes. */
    method OfferFlightBoxes(build: BuildOptions, craft: Craft) returns (ghost after: seq<Candidate>)
      requires Building([])
      modifies this, activeBoxIds
      ensures after == WithPosition(WithAltitude(WithHeading(WithAttitude([], build, craft), build, craft),
                                                 build, craft), build, craft)
      ensures Building(after)
    {
      after := OfferAttitudeBoxes(build, craft, []);
      after := OfferHeadingBoxes(build, craft, after);
      after := OfferAltitudeBoxes(build, craft, after);
      after := OfferPositionBoxes(build, craft, after);
    }

    /** Lines 191-244: the airplane, auxiliary, safety and camera boxes. */
    method OfferOtherBoxes(build: BuildOptions, craft: Craft, ghost before: seq<Candidate>)
      returns (ghost after: seq<Candidate>)
      requires Building(before) && |before| == 16
      modifies this, activeBoxIds
      ensures after == WithCameras(WithSafety(WithAuxiliary(WithAirplane(before, build, craft),
                                                            build, craft), build, craft), build, craft)
      ensures Building(after)
    {
      after := OfferAirplaneBoxes(build, craft, before);
      after := OfferAuxiliaryBoxes(build, craft, after);
      after := OfferSafetyBoxes(build, craft, after);
      after := OfferCameraBoxes(build, craft, after);
    }

    /** Having dealt with every candidate, the array is well formed and
        its filled part is the active list. */
    lemma Built(build: BuildOptions, craft: Craft)
      requires Building(Candidates(build, craft))
      ensures Valid() && ActiveIds() == ActiveBoxList(build, craft)
    {
      ActiveBoxListShape(build, craft);
      assert forall k :: 0 <= k < activeBoxIdCount ==> activeBoxIds[k] in ActiveIds();
    }

    /** `initActiveBoxIds`: resets the array to 0xFF and appends, in the
        builder's order, every box the configuration wants. */
    method InitActiveBoxIds(build: BuildOptions, craft: Craft)
      requires activeBoxIds.Length == CheckboxItemCount
      modifies this, activeBoxIds
      ensures Valid()
      ensures ActiveIds() == ActiveBoxList(build, craft)
      ensures forall k :: activeBoxIdCount <= k < activeBoxIds.Length ==> activeBoxIds[k] == 0xFF
    {
      forall k | 0 <= k < activeBoxIds.Length {
        activeBoxIds[k] := 0xFF;
      }
      activeBoxIdCount := 0;
      ghost var cands := OfferFlightBoxes(build, craft);
      cands := OfferOtherBoxes(build, craft, cands);
      Built(build, craft);
    }

    /** The first pass of `serializeBoxNamesReply`: the total length of
        the names of the active boxes and their suffixes. */
    method MeasureBoxNamesReply(boxes: seq<Box>) returns (replyLengthTotal: nat)
      requires Valid() && BoxTable(boxes)
      ensures replyLengthTotal == |NamesReply(boxes, ActiveIds())|
    {
      ghost var ids := ActiveIds();
      replyLengthTotal := 0;
      for i := 0 to activeBoxIdCount
        invariant replyLengthTotal == |NamesReply(boxes, ids[..i])|
      {
        var box := FindBoxByActiveBoxId(boxes, activeBoxIds[i]);
        ghost var e := EntryOf(boxes, activeBoxIds[i]);
        NamedEntry(boxes, activeBoxIds[i]);
        NamesReplyStep(boxes, ids, i);
        if box.Some? {
          replyLengthTotal := replyLengthTotal + |NameBytes(boxes[box.value].boxName.value)| + BoxSuffixLen;
        }
      }
      assert ids[..activeBoxIdCount] == ids;
    }

    /** The second pass of `serializeBoxNamesReply`: writes the name and
        the suffix of every active box to `dst`, which has room for them. */
    method WriteBoxNames(boxes: seq<Box>, dst: Stream)
      requires Valid() && BoxTable(boxes)
      requires |NamesReply(boxes, ActiveIds())| <= dst.remaining
      modifies dst
      ensures dst.written == old(dst.written) + NamesReply(boxes, ActiveIds())
      ensures dst.remaining == old(dst.remaining) - |NamesReply(boxes, ActiveIds())|
    {
      ghost var ids := ActiveIds();
      for i := 0 to activeBoxIdCount
        invariant dst.written == old(dst.written) + NamesReply(boxes, ids[..i])
        invariant dst.remaining + |NamesReply(boxes, ids[..i])| == old(dst.remaining)
      {
        WriteBoxName(boxes, ids, i, activeBoxIds[i], dst, old(dst.written), old(dst.remaining));
      }
      assert ids[..activeBoxIdCount] == ids;
    }

    /** `serializeBoxNamesReply` over the table `boxes` (the `boxes`
        constant at every call): measures the MSP_BOXNAMES reply, then
        writes it to `dst` only if it fits, and reports whether it did. */
    method SerializeBoxNamesReply(boxes: seq<Box>, dst: Stream) returns (ok: bool)
      requires Valid() && BoxTable(boxes)
      modifies dst
      ensures ok <==> |NamesReply(boxes, ActiveIds())| <= old(dst.remaining)
      ensures ok ==> dst.written == old(dst.written) + NamesReply(boxes, ActiveIds())
      ensures ok ==> dst.remaining == old(dst.remaining) - |NamesReply(boxes, ActiveIds())|
      ensures !ok ==> dst.written == old(dst.written) && dst.remaining == old(dst.remaining)
    {
      var replyLengthTotal := MeasureBoxNamesReply(boxes);
      if dst.remaining < replyLengthTotal {
        return false;
      }
      WriteBoxNames(boxes, dst);
      return true;
    }

    /** `serializeBoxReply` over the table `boxes`: writes the permanent
        id of every active box to `dst`. The C code does not check for
        room, so its caller must leave one byte per active box. */
    method SerializeBoxReply(boxes: seq<Box>, dst: Stream)
      requires Valid() && BoxTable(boxes)
      requires activeBoxIdCount <= dst.remaining
      modifies dst
      ensures dst.written == old(dst.written) + BoxReply(boxes, ActiveIds())
      ensures dst.remaining == old(dst.remaining) - |BoxReply(boxes, ActiveIds())|
    {
      ghost var ids := ActiveIds();
      for i := 0 to activeBoxIdCount
        invariant dst.written == old(dst.written) + BoxReply(boxes, ids[..i])
        invariant dst.remaining + |BoxReply(boxes, ids[..i])| == old(dst.remaining)
        invariant |BoxReply(boxes, ids[..i])| <= i
        invariant i <= |ids| <= old(dst.remaining)
      {
        WriteBoxId(boxes, ids, i, activeBoxIds[i], dst, old(dst.written), old(dst.remaining));
      }
      assert ids[..activeBoxIdCount] == ids;
    }

    /** `packBoxModeFlags`: bit `i` of the box-mode bitmask (a `bool` per
        bit) is set exactly when the `i`-th active box has its mode on. */
    method PackBoxModeFlags(build: BuildOptions, state: FlightState, mspBoxModeFlags: array<bool>)
      requires Valid() && mspBoxModeFlags.Length == CheckboxItemCount
      modifies mspBoxModeFlags
      ensures forall i :: 0 <= i < mspBoxModeFlags.Length ==>
        (mspBoxModeFlags[i] <==> i < activeBoxIdCount && ModeActive(build, state, activeBoxIds[i]))
    {
      var activeBoxes := ActiveModeBoxes(build, state);
      forall i | 0 <= i < mspBoxModeFlags.Length {
        mspBoxModeFlags[i] := false;
      }
      for i := 0 to activeBoxIdCount
        invariant forall j :: 0 <= j < i ==>
          (mspBoxModeFlags[j] <==> ModeActive(build, state, activeBoxIds[j]))
        invariant forall j :: i <= j < mspBoxModeFlags.Length ==> !mspBoxModeFlags[j]
        invariant forall id: byte :: id < CheckboxItemCount ==> activeBoxes[id] == ModeActive(build, state, id)
      {
        if activeBoxes[activeBoxIds[i]] {
          mspBoxModeFlags[i] := true;
        }
      }
    }
  }
}

/**
 * FingerprintRepository as its unit test pins it down: stateless queries
 * over what the fingerprint manager reports, namely the list of sensor
 * properties and, per user, the list of enrolled fingerprints.
 */
module Fingerprint {
  import opened Wrappers

  /** FingerprintSensorProperties.SensorType */
  datatype SensorType =
    | TypeUnknown
    | TypeRear
    | TypeUdfpsUltrasonic
    | TypeUdfpsOptical
    | TypePowerButton
    | TypeHomeButton

  /** What a sensor type lets the enrollment flow assume. */
  datatype Capabilities = Capabilities(udfps: bool, sfps: bool)

  /** The lookup from sensor type to capabilities, one entry per type. */
  function CapabilitiesOf(t: SensorType): Capabilities {
    match t
    case TypeUnknown => Capabilities(false, false)
    case TypeRear => Capabilities(false, false)
    case TypeUdfpsUltrasonic => Capabilities(true, false)
    case TypeUdfpsOptical => Capabilities(true, false)
    case TypePowerButton => Capabilities(false, true)
    case TypeHomeButton => Capabilities(false, false)
  }

  /** FingerprintSensorPropertiesInternal, without strength, component info and the lockout flag. */
  datatype SensorProperties = SensorProperties(sensorId: int, maxEnrollmentsPerUser: int, sensorType: SensorType)

  datatype EnrolledFingerprint = EnrolledFingerprint(name: string, groupId: int, fingerId: int, deviceId: int)

  /**
   * What the repository asks the fingerprint manager: the sensor list and
   * the enrolled fingerprints of each user (a user with no entry has none).
   */
  datatype FingerprintManager = FingerprintManager(
    sensorProperties: seq<SensorProperties>,
    enrolled: map<int, seq<EnrolledFingerprint>>)
  {
    function EnrolledFingerprints(userId: int): seq<EnrolledFingerprint> {
      if userId in enrolled then enrolled[userId] else []
    }
  }

  /** The name of the integer resource read during setup. */
  const SUW_MAX_FINGERPRINTS_ENROLLABLE := "suw_max_fingerprints_enrollable"

  /** A resources object, reduced to its integer resources by name. */
  datatype Resources = Resources(integers: map<string, int>)

  datatype ResourceError = ResourcesNotFound(name: string)

  datatype FingerprintRepository = FingerprintRepository(manager: FingerprintManager) {

    predicate HasSensor() {
      |manager.sensorProperties| > 0
    }

    function FirstSensor(): SensorProperties
      requires HasSensor()
    {
      manager.sensorProperties[0]
    }

    /** True exactly for the two under-display sensor types. */
    function CanAssumeUdfps(): (r: bool)
      requires HasSensor()
      ensures r <==> FirstSensor().sensorType == TypeUdfpsOptical || FirstSensor().sensorType == TypeUdfpsUltrasonic
    {
      CapabilitiesOf(FirstSensor().sensorType).udfps
    }

    /** True exactly for the power-button (side) sensor type. */
    function CanAssumeSfps(): (r: bool)
      requires HasSensor()
      ensures r <==> FirstSensor().sensorType == TypePowerButton
    {
      CapabilitiesOf(FirstSensor().sensorType).sfps
    }

    /** The first sensor's per-user enrollment limit, whatever its type. */
    function MaxFingerprints(): (n: int)
      requires HasSensor()
      ensures n == FirstSensor().maxEnrollmentsPerUser
    {
      FirstSensor().maxEnrollmentsPerUser
    }

    /** The number of fingerprints the user has enrolled. */
    function NumOfEnrolledFingerprintsSize(userId: int): (n: nat)
      ensures userId in manager.enrolled ==> n == |manager.enrolled[userId]|
      ensures userId !in manager.enrolled ==> n == 0
    {
      |manager.EnrolledFingerprints(userId)|
    }

    /** The suw_max_fingerprints_enrollable integer resource; a missing one is NotFoundException. */
    function MaxFingerprintsInSuw(res: Resources): (r: Result<int, ResourceError>)
      ensures SUW_MAX_FINGERPRINTS_ENROLLABLE in res.integers <==> r.Success?
      ensures r.Success? ==> r.value == res.integers[SUW_MAX_FINGERPRINTS_ENROLLABLE]
      ensures r.Failure? ==> r.error == ResourcesNotFound(SUW_MAX_FINGERPRINTS_ENROLLABLE)
    {
      if SUW_MAX_FINGERPRINTS_ENROLLABLE in res.integers then Success(res.integers[SUW_MAX_FINGERPRINTS_ENROLLABLE])
      else Failure(ResourcesNotFound(SUW_MAX_FINGERPRINTS_ENROLLABLE))
    }
  }

  /** No sensor type is both under-display and side-mounted. */
  lemma CapabilitiesExclusive(t: SensorType)
    ensures !(CapabilitiesOf(t).udfps && CapabilitiesOf(t).sfps)
  {
  }

  // ---------------------------------------------------------------------------
  // The test's fixtures and what it asserts about them

  /** setupFingerprintFirstSensor: a single strong sensor with id 0. */
  function WithFirstSensor(m: FingerprintManager, sensorType: SensorType, maxEnrollmentsPerUser: int): (r: FingerprintManager)
    ensures |r.sensorProperties| == 1
    ensures r.sensorProperties[0].sensorId == 0
    ensures r.sensorProperties[0].sensorType == sensorType
    ensures r.sensorProperties[0].maxEnrollmentsPerUser == maxEnrollmentsPerUser
    ensures r.enrolled == m.enrolled
  {
    m.(sensorProperties := [SensorProperties(0, maxEnrollmentsPerUser, sensorType)])
  }

  /**
   * setupFingerprintEnrolledFingerprints: the user gets that many identical
   * fingerprints (none for a negative count, whose loop never runs).
   */
  function WithEnrolledFingerprints(m: FingerprintManager, userId: int, count: int): (r: FingerprintManager)
    ensures |r.EnrolledFingerprints(userId)| == if count < 0 then 0 else count
    ensures forall u :: u != userId ==> r.EnrolledFingerprints(u) == m.EnrolledFingerprints(u)
    ensures r.sensorProperties == m.sensorProperties
  {
    m.(enrolled := m.enrolled[userId := seq(if count < 0 then 0 else count, _ => EnrolledFingerprint("name", 0, 0, 0))])
  }

  /** setupSuwMaxFingerprintsEnrollable: the resource now holds the value. */
  function WithSuwMaxFingerprints(res: Resources, value: int): (r: Resources)
    ensures SUW_MAX_FINGERPRINTS_ENROLLABLE in r.integers && r.integers[SUW_MAX_FINGERPRINTS_ENROLLABLE] == value
    ensures forall name :: name in res.integers && name != SUW_MAX_FINGERPRINTS_ENROLLABLE ==> name in r.integers && r.integers[name] == res.integers[name]
  {
    res.(integers := res.integers[SUW_MAX_FINGERPRINTS_ENROLLABLE := value])
  }

  /** The six testCanAssumeSensorType cases, for any manager and limit. */
  lemma CanAssumeSensorType(m: FingerprintManager, t: SensorType, maxEnrollments: int)
    ensures var repo := FingerprintRepository(WithFirstSensor(m, t, maxEnrollments));
      && (repo.CanAssumeUdfps() <==> t in {TypeUdfpsUltrasonic, TypeUdfpsOptical})
      && (repo.CanAssumeSfps() <==> t == TypePowerButton)
      && !(repo.CanAssumeUdfps() && repo.CanAssumeSfps())
  {
  }

  /** testGetMaxFingerprints: the limit does not depend on the sensor type. */
  lemma MaxFingerprintsIgnoresType(m: FingerprintManager, t1: SensorType, t2: SensorType, maxEnrollments: int)
    ensures FingerprintRepository(WithFirstSensor(m, t1, maxEnrollments)).MaxFingerprints() == maxEnrollments
    ensures FingerprintRepository(WithFirstSensor(m, t1, maxEnrollments)).MaxFingerprints() ==
            FingerprintRepository(WithFirstSensor(m, t2, maxEnrollments)).MaxFingerprints()
  {
  }

  /** Setting up one user's fingerprints gives that user the count and leaves every other user alone. */
  lemma EnrolledCountPerUser(m: FingerprintManager, userId: int, count: int, other: int)
    requires other != userId
    ensures FingerprintRepository(WithEnrolledFingerprints(m, userId, count)).NumOfEnrolledFingerprintsSize(userId) ==
            if count < 0 then 0 else count
    ensures FingerprintRepository(WithEnrolledFingerprints(m, userId, count)).NumOfEnrolledFingerprintsSize(other) ==
            FingerprintRepository(m).NumOfEnrolledFingerprintsSize(other)
  {
  }

  /** testGetNumOfEnrolledFingerprintsSize: users 10 and 22 hold 3 and 99 together. */
  lemma TwoUsersEnrolled(m: FingerprintManager)
    ensures var repo := FingerprintRepository(WithEnrolledFingerprints(WithEnrolledFingerprints(m, 10, 3), 22, 99));
      repo.NumOfEnrolledFingerprintsSize(10) == 3 && repo.NumOfEnrolledFingerprintsSize(22) == 99
  {
    EnrolledCountPerUser(m, 10, 3, 22);
    EnrolledCountPerUser(WithEnrolledFingerprints(m, 10, 3), 22, 99, 10);
  }

  /** testGetMaxFingerprintsInSuw: the query follows the latest value set. */
  lemma SuwMaxTracksLatest(repo: FingerprintRepository, res: Resources, first: int, latest: int)
    ensures repo.MaxFingerprintsInSuw(WithSuwMaxFingerprints(res, first)) == Success(first)
    ensures repo.MaxFingerprintsInSuw(WithSuwMaxFingerprints(WithSuwMaxFingerprints(res, first), latest)) == Success(latest)
  {
  }
}

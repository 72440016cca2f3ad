/** The profile and device settings form of components/user-settings.tsx:
    defaults, loading saved values (the maximum heart rate recomputed from
    the age), and the two change handlers, of which only an age change
    touches a second field. */
module UserSettings {
  import opened JsBuiltins
  import HeartRateChart

  /** `UserProfile`; a `maxHeartRate` of `None` is `NaN` (an age that
      `parseInt` cannot read). */
  datatype Profile = Profile(
    name: string, age: string, weight: string, height: string, gender: string,
    experience: string, dominantHand: string, gloveSize: string,
    maxHeartRate: Option<int>)

  /** The text fields the form edits. */
  datatype ProfileField = Name | Age | Weight | Height | Gender | Experience | DominantHand | GloveSize

  datatype DeviceSettings = DeviceSettings(
    sensorSensitivity: int, dataUpdateFrequency: int, punchDetectionThreshold: int,
    enableVibration: bool, enableSounds: bool, lowBatteryAlert: bool)

  datatype DeviceField =
    SensorSensitivity | DataUpdateFrequency | PunchDetectionThreshold | EnableVibration | EnableSounds | LowBatteryAlert

  /** A slider position or a switch state. */
  datatype DeviceValue = Number(n: int) | Flag(b: bool)

  predicate IsSwitch(f: DeviceField)
  {
    f == EnableVibration || f == EnableSounds || f == LowBatteryAlert
  }

  const DefaultProfile := Profile("", "", "", "", "", "beginner", "right", "medium", Some(220))

  const DefaultDeviceSettings := DeviceSettings(75, 50, 60, true, false, true)

  function Get(p: Profile, f: ProfileField): string
  {
    match f
    case Name => p.name
    case Age => p.age
    case Weight => p.weight
    case Height => p.height
    case Gender => p.gender
    case Experience => p.experience
    case DominantHand => p.dominantHand
    case GloveSize => p.gloveSize
  }

  /** `{ ...p, [field]: value }` */
  function With(p: Profile, f: ProfileField, value: string): (r: Profile)
    ensures Get(r, f) == value && r.maxHeartRate == p.maxHeartRate
    ensures forall g :: g != f ==> Get(r, g) == Get(p, g)
  {
    match f
    case Name => p.(name := value)
    case Age => p.(age := value)
    case Weight => p.(weight := value)
    case Height => p.(height := value)
    case Gender => p.(gender := value)
    case Experience => p.(experience := value)
    case DominantHand => p.(dominantHand := value)
    case GloveSize => p.(gloveSize := value)
  }

  function GetDevice(d: DeviceSettings, f: DeviceField): DeviceValue
  {
    match f
    case SensorSensitivity => Number(d.sensorSensitivity)
    case DataUpdateFrequency => Number(d.dataUpdateFrequency)
    case PunchDetectionThreshold => Number(d.punchDetectionThreshold)
    case EnableVibration => Flag(d.enableVibration)
    case EnableSounds => Flag(d.enableSounds)
    case LowBatteryAlert => Flag(d.lowBatteryAlert)
  }

  /** `{ ...d, [field]: value }` */
  function WithDevice(d: DeviceSettings, f: DeviceField, v: DeviceValue): (r: DeviceSettings)
    requires IsSwitch(f) <==> v.Flag?
    ensures GetDevice(r, f) == v
    ensures forall g :: g != f ==> GetDevice(r, g) == GetDevice(d, g)
  {
    match f
    case SensorSensitivity => d.(sensorSensitivity := v.n)
    case DataUpdateFrequency => d.(dataUpdateFrequency := v.n)
    case PunchDetectionThreshold => d.(punchDetectionThreshold := v.n)
    case EnableVibration => d.(enableVibration := v.b)
    case EnableSounds => d.(enableSounds := v.b)
    case LowBatteryAlert => d.(lowBatteryAlert := v.b)
  }

  /** `220 - Number.parseInt(age)` */
  function MaxHeartRateForAge(age: string): (r: Option<int>)
    ensures r.Some? <==> ParseInt(age).Some?
    ensures r.Some? ==> r.value + ParseInt(age).value == 220
  {
    match ParseInt(age)
    case None => None
    case Some(a) => Some(220 - a)
  }

  /** The maximum heart rate a loaded profile gets. */
  function LoadedMaxHeartRate(age: string): (r: Option<int>)
    ensures age == "" ==> r == Some(220)
    ensures age != "" ==> (r.Some? <==> ParseInt(age).Some?)
    ensures age != "" && r.Some? ==> r.value + ParseInt(age).value == 220
  {
    if age != "" then MaxHeartRateForAge(age) else Some(220)
  }

  /** Loading a profile here and in the heart-rate chart applies one rule. */
  lemma SameRuleAsChart(age: string)
    ensures LoadedMaxHeartRate(age) == HeartRateChart.LoadedMaxHeartRate(Some(HeartRateChart.SavedProfile(age)))
  {
    var here := LoadedMaxHeartRate(age);
    var chart := HeartRateChart.LoadedMaxHeartRate(Some(HeartRateChart.SavedProfile(age)));
    if age != "" {
      assert here.Some? <==> chart.Some?;
      if here.Some? {
        assert here.value == chart.value;
      }
    }
  }

  class Settings {
    var profile: Profile
    var deviceSettings: DeviceSettings

    constructor ()
      ensures profile == DefaultProfile && deviceSettings == DefaultDeviceSettings
    {
      profile := DefaultProfile;
      deviceSettings := DefaultDeviceSettings;
    }

    /** The mount effect: a saved profile replaces the form with its
        maximum heart rate recomputed; saved settings replace the settings. */
    method LoadSaved(savedProfile: Option<Profile>, savedSettings: Option<DeviceSettings>)
      modifies this
      ensures savedProfile.Some? ==>
        profile == savedProfile.value.(maxHeartRate := LoadedMaxHeartRate(savedProfile.value.age))
      ensures savedProfile.None? ==> profile == old(profile)
      ensures deviceSettings == if savedSettings.Some? then savedSettings.value else old(deviceSettings)
    {
      if savedProfile.Some? {
        var parsed := savedProfile.value;
        profile := parsed.(maxHeartRate := LoadedMaxHeartRate(parsed.age));
      }
      if savedSettings.Some? {
        deviceSettings := savedSettings.value;
      }
    }

    /** `handleProfileChange`: set the field; a non-empty age also sets the
        maximum heart rate to 220 − age, an empty one leaves it. */
    method HandleProfileChange(field: ProfileField, value: string)
      modifies this`profile
      ensures Get(profile, field) == value
      ensures forall g :: g != field ==> Get(profile, g) == Get(old(profile), g)
      ensures profile.maxHeartRate ==
        if field == Age && value != "" then MaxHeartRateForAge(value) else old(profile.maxHeartRate)
    {
      var updated := With(profile, field, value);
      if field == Age && value != "" {
        updated := updated.(maxHeartRate := MaxHeartRateForAge(value));
      }
      profile := updated;
    }

    /** `handleDeviceSettingChange`: sliders pass numbers, switches pass
        booleans. */
    method HandleDeviceSettingChange(field: DeviceField, value: DeviceValue)
      requires IsSwitch(field) <==> value.Flag?
      modifies this`deviceSettings
      ensures GetDevice(deviceSettings, field) == value
      ensures forall g :: g != field ==> GetDevice(deviceSettings, g) == GetDevice(old(deviceSettings), g)
    {
      deviceSettings := WithDevice(deviceSettings, field, value);
    }
  }
}

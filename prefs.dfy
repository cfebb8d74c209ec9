/**
 * The arithmetic of the options page, chrome/mtzoom/content/prefs.js: the
 * slider (0..10) to zoom speed (0..1.4) conversions, and the storage of a
 * number setting, either as a float preference or, where the preference
 * service has no float setter, as an integer count of tenths.
 */
module Prefs {
  const MaxSpeed: real := 1.4
  const MaxSlider: real := 10.0
  const DefaultSpeed: real := 0.7

  function Clamp(lo: real, hi: real, v: real): (r: real)
    requires lo <= hi
    ensures lo <= r <= hi
    ensures lo <= v <= hi ==> r == v
    ensures v < lo ==> r == lo
    ensures v > hi ==> r == hi
  {
    if v < lo then lo else if v > hi then hi else v
  }

  /** Math.round: the nearest integer, halves rounded up. */
  function Round(x: real): (n: int)
    ensures x - 0.5 < n as real <= x + 0.5
  {
    (x + 0.5).Floor
  }

  /** Rounding an integer gives it back. */
  lemma RoundInt(n: int)
    ensures Round(n as real) == n
  {
  }

  /** Rounding never reverses an order. */
  lemma RoundMonotone(a: real, b: real)
    requires a <= b
    ensures Round(a) <= Round(b)
  {
  }

  /** speedToSlider: clamp the speed to [0, 1.4] and round it to a step of 0.14. */
  function SpeedToSlider(v: real): (s: int)
    ensures 0 <= s <= 10
    ensures v <= 0.0 ==> s == 0
    ensures v >= MaxSpeed ==> s == 10
  {
    var clamped := Clamp(0.0, MaxSpeed, v);
    Round(clamped / MaxSpeed * MaxSlider)
  }

  /** sliderToSpeed: clamp the slider value to [0, 10] and scale it to [0, 1.4]. */
  function SliderToSpeed(s: real): (v: real)
    ensures 0.0 <= v <= MaxSpeed
    ensures s <= 0.0 ==> v == 0.0
    ensures s >= MaxSlider ==> v == MaxSpeed
  {
    var clamped := Clamp(0.0, MaxSlider, s);
    clamped / MaxSlider * MaxSpeed
  }

  /** The slider's default position 5 is the default speed 0.7, both ways. */
  lemma DefaultMapping()
    ensures SliderToSpeed(5.0) == DefaultSpeed
    ensures SpeedToSlider(DefaultSpeed) == 5
  {
  }

  /** Every slider position survives the trip to a speed and back. */
  lemma SliderRoundTrip(s: int)
    requires 0 <= s <= 10
    ensures SpeedToSlider(SliderToSpeed(s as real)) == s
  {
  }

  /** A speed taken to the slider and back moves to the nearest step, at most 0.07 away from the clamped speed. */
  lemma SpeedSnapsToNearestStep(v: real)
    ensures var c := Clamp(0.0, MaxSpeed, v);
            var back := SliderToSpeed(SpeedToSlider(v) as real);
            c - 0.07 <= back <= c + 0.07
  {
  }

  /** speedToSlider is monotone. */
  lemma SpeedToSliderMonotone(a: real, b: real)
    requires a <= b
    ensures SpeedToSlider(a) <= SpeedToSlider(b)
  {
    RoundMonotone(Clamp(0.0, MaxSpeed, a) / MaxSpeed * MaxSlider, Clamp(0.0, MaxSpeed, b) / MaxSpeed * MaxSlider);
  }

  /** sliderToSpeed is monotone. */
  lemma SliderToSpeedMonotone(a: real, b: real)
    requires a <= b
    ensures SliderToSpeed(a) <= SliderToSpeed(b)
  {
  }

  /** The fallback encoding: Math.round(v * 10), decoded by / 10. */
  function EncodeTenths(v: real): (n: int)
    ensures v * 10.0 - 0.5 < n as real <= v * 10.0 + 0.5
  {
    Round(v * 10.0)
  }

  function DecodeTenths(n: int): (v: real)
    ensures v * 10.0 == n as real
  {
    n as real / 10.0
  }

  /** Storing in tenths loses at most 0.05. */
  lemma TenthsWithinHalfATenth(v: real)
    ensures v - 0.05 < DecodeTenths(EncodeTenths(v)) <= v + 0.05
  {
  }

  /** A value that already is a whole number of tenths is stored exactly. */
  lemma TenthsExact(n: int)
    ensures EncodeTenths(DecodeTenths(n)) == n
  {
    RoundInt(n);
  }

  /**
   * The conversion of a number to the 32-bit `long` setIntPref takes
   * (ECMAScript ToInt32 on an integer): the value modulo 2^32, read as signed.
   */
  function ToInt32(n: int): (r: int)
    ensures -0x8000_0000 <= r < 0x8000_0000
    ensures -0x8000_0000 <= n < 0x8000_0000 ==> r == n
    ensures (n - r) % 0x1_0000_0000 == 0
  {
    var m := n % 0x1_0000_0000;
    if m >= 0x8000_0000 then m - 0x1_0000_0000 else m
  }

  /** Number(value): a finite number, or one of the values isFinite rejects. */
  datatype Num = Finite(v: real) | NaN | PosInfinity | NegInfinity

  /** A stored preference, by type. */
  datatype PrefValue = FloatPref(f: real) | IntPref(i: int)

  /** Which float accessors the preference service offers. */
  datatype FloatApi = FloatApi(canGet: bool, canSet: bool)

  /**
   * setNum: a non-finite value is dropped; otherwise it is stored as a float
   * when the service can, else as Math.round(v * 10) wrapped to 32 bits.
   */
  function SetNum(api: FloatApi, store: map<string, PrefValue>, name: string, value: Num): (r: map<string, PrefValue>)
    ensures !value.Finite? ==> r == store
    ensures value.Finite? ==> name in r && r.Keys == store.Keys + {name}
    ensures forall other :: other in store && other != name ==> other in r && r[other] == store[other]
    ensures value.Finite? && !api.canSet ==> r[name] == IntPref(ToInt32(EncodeTenths(value.v)))
    ensures value.Finite? && api.canSet ==> r[name] == FloatPref(value.v)
  {
    match value
    case Finite(v) =>
      if api.canSet then store[name := FloatPref(v)] else store[name := IntPref(ToInt32(EncodeTenths(v)))]
    case _ => store
  }

  /**
   * getNum: the float preference when the service can read one; failing that
   * (no getter, or the preference is not a float) the integer preference / 10;
   * failing that the fallback.
   */
  function GetNum(api: FloatApi, store: map<string, PrefValue>, name: string, fallback: real): (r: real)
    ensures name !in store ==> r == fallback
    ensures name in store && store[name].IntPref? ==> r == DecodeTenths(store[name].i)
    ensures name in store && store[name].FloatPref? ==> r == if api.canGet then store[name].f else fallback
  {
    if api.canGet && name in store && store[name].FloatPref? then store[name].f
    else if name in store && store[name].IntPref? then DecodeTenths(store[name].i)
    else fallback
  }

  /**
   * Reading back what setNum wrote for a finite value: the exact value through
   * the float accessors, the fallback when only the setter exists, and through
   * the tenths fallback the wrapped count / 10, which is within 0.05 of the
   * value while Math.round(v * 10) fits 32 bits.
   */
  lemma SetThenGet(api: FloatApi, store: map<string, PrefValue>, name: string, value: Num, fallback: real)
    requires value.Finite?
    ensures var got := GetNum(api, SetNum(api, store, name, value), name, fallback);
            && (api.canSet && api.canGet ==> got == value.v)
            && (api.canSet && !api.canGet ==> got == fallback)
            && (!api.canSet ==> got == DecodeTenths(ToInt32(EncodeTenths(value.v))))
            && (!api.canSet && -0x8000_0000 <= EncodeTenths(value.v) < 0x8000_0000 ==> value.v - 0.05 < got <= value.v + 0.05)
  {
  }

  /** Without a float setter, 3e8 is stored as 3000000000 wrapped to -1294967296 and read back as -129496729.6. */
  lemma LargeValueWraps(store: map<string, PrefValue>, name: string, fallback: real)
    ensures GetNum(FloatApi(false, false), SetNum(FloatApi(false, false), store, name, Finite(300000000.0)), name, fallback)
            == -129496729.6
  {
  }
}

/** The fifteen beautification sliders of the mirror view, their default
    profile, and the scaled copies that are sent to the AR session. */
module Beauty {

  /** The keys of the settings record, in declaration order. */
  datatype Slider =
    | Whiten | Dermabrasion | Lift | Shave | Eye | Chin
    | DarkCircle | NasolabialFolds | Cheekbone | Head | EyeBrightness
    | Lip | Forehead | Nose | Usm

  /** A record with one value per slider. The store holds a `Profile<int>`
      (slider positions 0..100); the AR session receives a `Profile<real>`. */
  datatype Profile<T> = Profile(
    whiten: T, dermabrasion: T, lift: T, shave: T, eye: T, chin: T,
    darkCircle: T, nasolabialFolds: T, cheekbone: T, head: T,
    eyeBrightness: T, lip: T, forehead: T, nose: T, usm: T)

  type BeautySettings = Profile<int>
  type BeautifyConfig = Profile<real>

  /** Field access by key: `settings[key]`. */
  function Get<T>(p: Profile<T>, k: Slider): T
  {
    match k
    case Whiten => p.whiten
    case Dermabrasion => p.dermabrasion
    case Lift => p.lift
    case Shave => p.shave
    case Eye => p.eye
    case Chin => p.chin
    case DarkCircle => p.darkCircle
    case NasolabialFolds => p.nasolabialFolds
    case Cheekbone => p.cheekbone
    case Head => p.head
    case EyeBrightness => p.eyeBrightness
    case Lip => p.lip
    case Forehead => p.forehead
    case Nose => p.nose
    case Usm => p.usm
  }

  /** Two profiles that agree on every key are the same record. */
  lemma Extensionality<T>(p: Profile<T>, q: Profile<T>)
    requires forall k :: Get(p, k) == Get(q, k)
    ensures p == q
  {
    assert Get(p, Whiten) == Get(q, Whiten);
    assert Get(p, Dermabrasion) == Get(q, Dermabrasion);
    assert Get(p, Lift) == Get(q, Lift);
    assert Get(p, Shave) == Get(q, Shave);
    assert Get(p, Eye) == Get(q, Eye);
    assert Get(p, Chin) == Get(q, Chin);
    assert Get(p, DarkCircle) == Get(q, DarkCircle);
    assert Get(p, NasolabialFolds) == Get(q, NasolabialFolds);
    assert Get(p, Cheekbone) == Get(q, Cheekbone);
    assert Get(p, Head) == Get(q, Head);
    assert Get(p, EyeBrightness) == Get(q, EyeBrightness);
    assert Get(p, Lip) == Get(q, Lip);
    assert Get(p, Forehead) == Get(q, Forehead);
    assert Get(p, Nose) == Get(q, Nose);
    assert Get(p, Usm) == Get(q, Usm);
  }

  /** `{ ...p, [k]: v }`: exactly the field `k` takes the value `v`. */
  function With<T>(p: Profile<T>, k: Slider, v: T): (r: Profile<T>)
    ensures Get(r, k) == v
    ensures forall j :: j != k ==> Get(r, j) == Get(p, j)
  {
    match k
    case Whiten => p.(whiten := v)
    case Dermabrasion => p.(dermabrasion := v)
    case Lift => p.(lift := v)
    case Shave => p.(shave := v)
    case Eye => p.(eye := v)
    case Chin => p.(chin := v)
    case DarkCircle => p.(darkCircle := v)
    case NasolabialFolds => p.(nasolabialFolds := v)
    case Cheekbone => p.(cheekbone := v)
    case Head => p.(head := v)
    case EyeBrightness => p.(eyeBrightness := v)
    case Lip => p.(lip := v)
    case Forehead => p.(forehead := v)
    case Nose => p.(nose := v)
    case Usm => p.(usm := v)
  }

  /** Writing back the value a field already has changes nothing. */
  lemma WithSameValue<T>(p: Profile<T>, k: Slider)
    ensures With(p, k, Get(p, k)) == p
  {
    Extensionality(With(p, k, Get(p, k)), p);
  }

  /** A second write to the same field overrides the first. */
  lemma WithOverwrite<T>(p: Profile<T>, k: Slider, a: T, b: T)
    ensures With(With(p, k, a), k, b) == With(p, k, b)
  {
    Extensionality(With(With(p, k, a), k, b), With(p, k, b));
  }

  /** Writes to two different fields commute. */
  lemma WithCommutes<T>(p: Profile<T>, j: Slider, a: T, k: Slider, b: T)
    requires j != k
    ensures With(With(p, j, a), k, b) == With(With(p, k, b), j, a)
  {
    Extensionality(With(With(p, j, a), k, b), With(With(p, k, b), j, a));
  }

  /** The initial state of the store and the target of reset:
      whiten 30, dermabrasion 50, every other slider 0. */
  function Default(): (d: BeautySettings)
    ensures Get(d, Whiten) == 30 && Get(d, Dermabrasion) == 50
    ensures forall k :: k != Whiten && k != Dermabrasion ==> Get(d, k) == 0
  {
    Profile(30, 50, 0, 0, 0, 0, 0, 0, 0, 0, 0, 0, 0, 0, 0)
  }

  /** The all-zero config pushed when the effects are switched off. */
  function Zeros(): (z: BeautifyConfig)
    ensures forall k :: Get(z, k) == 0.0
  {
    Profile(0.0, 0.0, 0.0, 0.0, 0.0, 0.0, 0.0, 0.0, 0.0, 0.0, 0.0, 0.0, 0.0, 0.0, 0.0)
  }

  /** The literal config that reset pushes: 0.3, 0.5, then zeros. */
  function ResetConfig(): (c: BeautifyConfig)
    ensures Get(c, Whiten) == 0.3 && Get(c, Dermabrasion) == 0.5
    ensures forall k :: k != Whiten && k != Dermabrasion ==> Get(c, k) == 0.0
  {
    Profile(0.3, 0.5, 0.0, 0.0, 0.0, 0.0, 0.0, 0.0, 0.0, 0.0, 0.0, 0.0, 0.0, 0.0, 0.0)
  }

  /** One slider position as the SDK reads it: the position divided by 100. */
  function Hundredths(v: int): (r: real)
    ensures 0 <= v <= 100 ==> 0.0 <= r <= 1.0
    ensures r * 100.0 == v as real
  {
    v as real / 100.0
  }

  /** Every field of the settings divided by 100. */
  function Scale(s: BeautySettings): (r: BeautifyConfig)
    ensures forall k :: Get(r, k) == Hundredths(Get(s, k))
  {
    Profile(
      Hundredths(s.whiten), Hundredths(s.dermabrasion), Hundredths(s.lift),
      Hundredths(s.shave), Hundredths(s.eye), Hundredths(s.chin),
      Hundredths(s.darkCircle), Hundredths(s.nasolabialFolds),
      Hundredths(s.cheekbone), Hundredths(s.head), Hundredths(s.eyeBrightness),
      Hundredths(s.lip), Hundredths(s.forehead), Hundredths(s.nose),
      Hundredths(s.usm))
  }

  /** Scaling loses nothing: two stores that push the same config are equal. */
  lemma ScaleInjective(s: BeautySettings, t: BeautySettings)
    requires Scale(s) == Scale(t)
    ensures s == t
  {
    forall k ensures Get(s, k) == Get(t, k) {
      assert Hundredths(Get(s, k)) * 100.0 == Get(s, k) as real;
      assert Hundredths(Get(t, k)) * 100.0 == Get(t, k) as real;
    }
    Extensionality(s, t);
  }

  /** Every slider in the slider widget's range 0..100. */
  predicate InRange(s: BeautySettings)
  {
    forall k :: 0 <= Get(s, k) <= 100
  }

  /** In-range settings scale into the SDK's range 0..1. */
  lemma ScaleInUnitRange(s: BeautySettings, k: Slider)
    requires InRange(s)
    ensures 0.0 <= Get(Scale(s), k) <= 1.0
  {
    assert 0 <= Get(s, k) <= 100;
  }

  /** The config that reset pushes is the default profile divided by 100. */
  lemma ResetConfigIsScaledDefault()
    ensures ResetConfig() == Scale(Default())
  {
    Extensionality(ResetConfig(), Scale(Default()));
  }

  /** The effective view: what the engine should show for a store and an
      enabled flag. Disabled means zeros whatever is stored. */
  function Effective(s: BeautySettings, enabled: bool): (r: BeautifyConfig)
    ensures !enabled ==> forall k :: Get(r, k) == 0.0
    ensures enabled ==> forall k :: Get(r, k) == Hundredths(Get(s, k))
  {
    if enabled then Scale(s) else Zeros()
  }

  /** While disabled, the effective view does not depend on what is stored. */
  lemma DisabledIgnoresStore(s: BeautySettings, t: BeautySettings)
    ensures Effective(s, false) == Effective(t, false)
  {
    Extensionality(Effective(s, false), Effective(t, false));
  }

  /** While enabled, the effective view determines the store. */
  lemma EnabledDeterminesStore(s: BeautySettings, t: BeautySettings)
    requires Effective(s, true) == Effective(t, true)
    ensures s == t
  {
    ScaleInjective(s, t);
  }
}

/** The heart particle field (`addHeart`) and the snow field (`addSnow`),
    script.js. `Math.random()` is an input stream of values in [0, 1); each
    particle consumes five of them in the order the source draws them. The
    records are the instanced attributes handed to the shaders. */
module Particles {
  import opened Random

  /** A colour as its three 8-bit channels; `THREE.Color` stores each one
      divided by 255. */
  datatype Rgb = Rgb(r: int, g: int, b: int)

  /** The decimal form of `Math.PI`. */
  const Pi: real := 3.141592653589793

  /** `parameters.max`: the bound of a heart particle's speed. */
  const MaxSpeed: real := 12.5 * Pi

  const MaxScale: real := 0.35

  /** Randoms each particle consumes. */
  const Draws: nat := 5

  const SnowCount: nat := 550

  const Rainbow: seq<Rgb> := [Rgb(0xff, 0x00, 0x00), Rgb(0xff, 0xa5, 0x00), Rgb(0xff, 0xff, 0x00),
                              Rgb(0x00, 0xff, 0x00), Rgb(0x00, 0x00, 0xff), Rgb(0x4b, 0x00, 0x82),
                              Rgb(0xee, 0x82, 0xee)]
  const Reds: seq<Rgb> := [Rgb(0xff, 0x00, 0x00), Rgb(0xff, 0x33, 0x33), Rgb(0xcc, 0x00, 0x00)]
  const Greens: seq<Rgb> := [Rgb(0x00, 0xff, 0x00), Rgb(0x33, 0xff, 0x33), Rgb(0x00, 0xcc, 0x00)]
  const Blues: seq<Rgb> := [Rgb(0x00, 0x00, 0xff), Rgb(0x33, 0x33, 0xff), Rgb(0x00, 0x00, 0xcc)]
  const Monochrome: seq<Rgb> := [Rgb(0xff, 0xff, 0xff), Rgb(0xcc, 0xcc, 0xcc), Rgb(0x99, 0x99, 0x99)]
  const Tim1Original: seq<Rgb> := [Rgb(0xff, 0x66, 0xcc), Rgb(0xff, 0x99, 0xff), Rgb(0xff, 0xcc, 0xff),
                                   Rgb(0xff, 0x33, 0x66), Rgb(0xff, 0xff, 0xff)]

  /** The snow field's fixed colours. */
  const SnowColors: seq<Rgb> := [Rgb(0xff, 0x66, 0xcc), Rgb(0xff, 0x99, 0xff), Rgb(0xff, 0xcc, 0xff),
                                 Rgb(0xff, 0xff, 0xff)]

  predicate IsKnownScheme(scheme: string)
  {
    scheme in {"rainbow", "red", "green", "blue", "monochrome", "tim1_original"}
  }

  /** `colorChoices[scheme] || colorChoices['tim1_original']`. */
  function Palette(scheme: string): (p: seq<Rgb>)
    ensures |p| > 0
    ensures !IsKnownScheme(scheme) ==> p == Tim1Original
  {
    match scheme
    case "rainbow" => Rainbow
    case "red" => Reds
    case "green" => Greens
    case "blue" => Blues
    case "monochrome" => Monochrome
    case "tim1_original" => Tim1Original
    case _ => Tim1Original
  }

  /** The palette sizes: seven hues, three shades for each single colour,
      five for the default; an unknown name such as `chartreuse` gets the
      default's five. */
  lemma PaletteSizes()
    ensures |Palette("rainbow")| == 7
    ensures |Palette("red")| == 3 && |Palette("green")| == 3 && |Palette("blue")| == 3
    ensures |Palette("monochrome")| == 3
    ensures |Palette("tim1_original")| == 5
    ensures Palette("chartreuse") == Palette("tim1_original")
  {
  }

  datatype HeartParticle = HeartParticle(
    random: real,    // attribute `random`
    random1: real,   // attribute `random1`
    scale: real,     // attribute `aScale`
    colorIndex: int,
    color: Rgb,      // attribute `aColor`
    speed: real)     // attribute `aSpeed`

  datatype SnowParticle = SnowParticle(
    phi: real,       // attribute `phi`
    random: real,
    random1: real,
    scale: real,
    colorIndex: int,
    color: Rgb)

  predicate HeartInRange(p: HeartParticle, palette: seq<Rgb>)
  {
    && IsUnit(p.random) && IsUnit(p.random1)
    && 0.0 <= p.scale < MaxScale
    && 0 <= p.colorIndex < |palette| && p.color == palette[p.colorIndex]
    && 0.0 <= p.speed < MaxSpeed
  }

  predicate SnowInRange(p: SnowParticle)
  {
    && -5.0 <= p.phi < 5.0
    && IsUnit(p.random) && IsUnit(p.random1)
    && 0.0 <= p.scale < MaxScale
    && 0 <= p.colorIndex < |SnowColors| && p.color == SnowColors[p.colorIndex]
  }

  /** One heart particle from its five draws. */
  function HeartParticleOf(rs: seq<real>, palette: seq<Rgb>): (p: HeartParticle)
    requires |rs| == Draws && IsRandomStream(rs) && |palette| > 0
    ensures HeartInRange(p, palette)
  {
    var k := Pick(rs[3], |palette|);
    HeartParticle(rs[0], rs[1], rs[2] * MaxScale, k, palette[k], rs[4] * MaxSpeed)
  }

  /** One snow particle from its five draws. */
  function SnowParticleOf(rs: seq<real>): (p: SnowParticle)
    requires |rs| == Draws && IsRandomStream(rs)
    ensures SnowInRange(p)
  {
    var k := Pick(rs[4], |SnowColors|);
    SnowParticle((rs[0] - 0.5) * 10.0, rs[1], rs[2], rs[3] * MaxScale, k, SnowColors[k])
  }

  /** The draws of particle `i`. */
  function DrawsOf(rs: seq<real>, i: nat): (d: seq<real>)
    requires Draws * (i + 1) <= |rs| && IsRandomStream(rs)
    ensures |d| == Draws && IsRandomStream(d)
  {
    rs[Draws * i..Draws * (i + 1)]
  }

  /** The field `addHeart` builds for `count` particles. */
  function HeartField(count: nat, scheme: string, rs: seq<real>): (f: seq<HeartParticle>)
    requires Draws * count <= |rs| && IsRandomStream(rs)
    ensures |f| == count
    ensures forall i :: 0 <= i < count ==> f[i] == HeartParticleOf(DrawsOf(rs, i), Palette(scheme))
  {
    seq(count, i requires 0 <= i < count => HeartParticleOf(DrawsOf(rs, i), Palette(scheme)))
  }

  /** The field `addSnow` builds. */
  function SnowField(rs: seq<real>): (f: seq<SnowParticle>)
    requires Draws * SnowCount <= |rs| && IsRandomStream(rs)
    ensures |f| == SnowCount
    ensures forall i :: 0 <= i < SnowCount ==> SnowInRange(f[i])
  {
    seq(SnowCount, i requires 0 <= i < SnowCount => SnowParticleOf(DrawsOf(rs, i)))
  }

  /** `addHeart`'s generation loop: exactly `count` records, each attribute
      in the range its draws give, each colour taken from the scheme's palette
      (the default one for an unknown scheme), and the records are those of
      `HeartField`. */
  method GenerateHeart(count: nat, scheme: string, rs: seq<real>) returns (field: seq<HeartParticle>)
    requires Draws * count <= |rs| && IsRandomStream(rs)
    ensures |field| == count
    ensures forall i :: 0 <= i < count ==> HeartInRange(field[i], Palette(scheme))
    ensures !IsKnownScheme(scheme) ==> forall i :: 0 <= i < count ==> field[i].color in Tim1Original
    ensures field == HeartField(count, scheme, rs)
  {
    var palette := Palette(scheme);
    field := [];
    var i := 0;
    while i < count
      invariant 0 <= i <= count
      invariant |field| == i
      invariant forall j :: 0 <= j < i ==> field[j] == HeartParticleOf(DrawsOf(rs, j), palette)
    {
      var r0, r1, r2, r3, r4 := rs[Draws * i], rs[Draws * i + 1], rs[Draws * i + 2], rs[Draws * i + 3], rs[Draws * i + 4];
      var k := Pick(r3, |palette|);
      var p := HeartParticle(r0, r1, r2 * MaxScale, k, palette[k], r4 * MaxSpeed);
      assert p == HeartParticleOf(DrawsOf(rs, i), palette);
      field := field + [p];
      i := i + 1;
    }
  }
}

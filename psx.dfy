/**
 * Host-side settings of the PSX look: the effect flag word each material
 * carries (snap, dither, quantize, affine and a per-material focus bit),
 * the normalisation of camera parameters into material parameters, and
 * the integer-scaled canvas that maps window pixels to low-res pixels.
 */
module Psx {
  import opened Wrappers
  import opened Numeric

  const FxSnap: bv32 := 1
  const FxDither: bv32 := 2
  const FxQuantize: bv32 := 4
  const FxAffine: bv32 := 8
  /** Set per material while the player looks at it; camera settings never touch it. */
  const FxFocused: bv32 := 16

  const InternalWidth: nat := 960
  const InternalHeight: nat := 540

  datatype DitherMode = Bayer4 | Ign | Hash

  /** The shader's code for each dither mode. */
  function DitherCode(m: DitherMode): (r: nat)
    ensures r == 0 || r == 3 || r == 4
  {
    match m
    case Bayer4 => 0
    case Ign => 3
    case Hash => 4
  }

  /** Distinct modes reach the shader as distinct codes. */
  lemma DitherCodesDistinct(a: DitherMode, b: DitherMode)
    ensures DitherCode(a) == DitherCode(b) <==> a == b
  {
  }

  /** The PSX settings a camera carries. */
  datatype PsxConfig = PsxConfig(
    resolution: (nat, nat),
    snap: bool,
    dither: bool,
    quantize: bool,
    affine: bool,
    quantizeSteps: nat,
    ditherStrength: real,
    ditherScale: real,
    ditherMode: DitherMode,
    saturation: real)

  function DefaultConfig(): PsxConfig
  {
    PsxConfig((InternalWidth, InternalHeight), true, true, true, true, 160, 0.18, 1.8, Bayer4, 1.0)
  }

  /** The parameters a PSX material hands to its shader. */
  datatype PsxExt = PsxExt(
    resolution: (real, real),
    quantizeSteps: nat,
    flags: bv32,
    ditherStrength: real,
    ditherScale: real,
    ditherMode: nat,
    saturation: real)

  /** OR in `bit` for each listed switch that is on. */
  function FoldFlags(switches: seq<(bv32, bool)>, acc: bv32): bv32
  {
    if switches == [] then acc
    else FoldFlags(switches[1..], if switches[0].1 then acc | switches[0].0 else acc)
  }

  /** The effect bits a configuration asks for. */
  function FlagsFrom(cfg: PsxConfig): (r: bv32)
  {
    FoldFlags([(FxSnap, cfg.snap), (FxDither, cfg.dither), (FxQuantize, cfg.quantize), (FxAffine, cfg.affine)], 0)
  }

  /**
   * Each effect bit is set exactly when its switch is on, and nothing else
   * is set; in particular the focus bit never is.
   */
  lemma FlagsFromBits(cfg: PsxConfig)
    ensures var r := FlagsFrom(cfg);
      (r & FxSnap != 0 <==> cfg.snap) && (r & FxDither != 0 <==> cfg.dither)
      && (r & FxQuantize != 0 <==> cfg.quantize) && (r & FxAffine != 0 <==> cfg.affine)
      && r & FxFocused == 0 && r < 16
  {
    var s := [(FxSnap, cfg.snap), (FxDither, cfg.dither), (FxQuantize, cfg.quantize), (FxAffine, cfg.affine)];
    var a1: bv32 := if cfg.snap then 1 else 0;
    var a2: bv32 := if cfg.dither then a1 | 2 else a1;
    var a3: bv32 := if cfg.quantize then a2 | 4 else a2;
    var a4: bv32 := if cfg.affine then a3 | 8 else a3;
    assert FoldFlags(s, 0) == FoldFlags(s[1..], a1);
    assert FoldFlags(s[1..], a1) == FoldFlags(s[2..], a2);
    assert FoldFlags(s[2..], a2) == FoldFlags(s[3..], a3);
    assert FoldFlags(s[3..], a3) == FoldFlags(s[4..], a4);
    assert s[4..] == [];
  }

  /** Parameters in the ranges the shader expects. */
  predicate Normalized(e: PsxExt)
  {
    e.quantizeSteps >= 2 && e.ditherStrength >= 0.0 && e.ditherScale >= 0.25
    && 0.0 <= e.saturation <= 1.0 && e.ditherMode in {0, 3, 4}
  }

  /** The material parameters for a configuration, clamped into range. */
  function MakeExt(cfg: PsxConfig): (r: PsxExt)
    ensures Normalized(r)
    ensures r.flags == FlagsFrom(cfg)
    ensures cfg.quantizeSteps >= 2 ==> r.quantizeSteps == cfg.quantizeSteps
    ensures cfg.ditherStrength >= 0.0 ==> r.ditherStrength == cfg.ditherStrength
    ensures cfg.ditherScale >= 0.25 ==> r.ditherScale == cfg.ditherScale
    ensures 0.0 <= cfg.saturation <= 1.0 ==> r.saturation == cfg.saturation
  {
    PsxExt(
      (cfg.resolution.0 as real, cfg.resolution.1 as real),
      Max(cfg.quantizeSteps, 2),
      FlagsFrom(cfg),
      MaxReal(cfg.ditherStrength, 0.0),
      MaxReal(cfg.ditherScale, 0.25),
      DitherCode(cfg.ditherMode),
      Clamp(cfg.saturation, 0.0, 1.0))
  }

  /** The flag word with the focus bit set or cleared. */
  function WithFocus(flags: bv32, focused: bool): bv32
  {
    if focused then flags | FxFocused else flags & !FxFocused
  }

  /** Focusing touches the focus bit and no other. */
  lemma WithFocusOnlyTouchesFocus(flags: bv32, focused: bool)
    ensures WithFocus(flags, focused) & FxFocused != 0 <==> focused
    ensures WithFocus(flags, focused) & !FxFocused == flags & !FxFocused
  {
  }

  /** A material after the camera's configuration was applied to it. */
  function ApplyConfig(e: PsxExt, cfg: PsxConfig): PsxExt
  {
    var made := MakeExt(cfg);
    made.(flags := (e.flags & FxFocused) | made.flags)
  }

  /**
   * Applying a configuration gives the material `MakeExt` would build,
   * except that it keeps its own focus bit; applying it again changes
   * nothing.
   */
  lemma ApplyConfigKeepsFocus(e: PsxExt, cfg: PsxConfig)
    ensures var a := ApplyConfig(e, cfg);
      Normalized(a)
      && (a.flags & FxFocused == e.flags & FxFocused)
      && (a.flags & !FxFocused == MakeExt(cfg).flags)
      && a.(flags := 0) == MakeExt(cfg).(flags := 0)
      && ApplyConfig(a, cfg) == a
  {
    FlagsFromBits(cfg);
  }

  /** Turn one material's focus highlight on or off in place. */
  method SetMaterialFocused(materials: array<PsxExt>, i: nat, focused: bool)
    requires i < materials.Length
    modifies materials
    ensures materials[i] == old(materials[i]).(flags := WithFocus(old(materials[i]).flags, focused))
    ensures forall j :: 0 <= j < materials.Length && j != i ==> materials[j] == old(materials[j])
  {
    var m := materials[i];
    materials[i] := m.(flags := WithFocus(m.flags, focused));
  }

  /**
   * When the camera's configuration changed (`cfg` present), rewrite every
   * PSX material from it, each keeping its own focus bit.
   */
  method ApplyPsxFromCamera(cfg: Option<PsxConfig>, materials: array<PsxExt>)
    modifies materials
    ensures cfg.None? ==> materials[..] == old(materials[..])
    ensures cfg.Some? ==> forall j :: 0 <= j < materials.Length ==> materials[j] == ApplyConfig(old(materials[j]), cfg.value)
  {
    if cfg.None? {
      return;
    }
    var c := cfg.value;
    for i := 0 to materials.Length
      invariant forall j :: 0 <= j < i ==> materials[j] == ApplyConfig(old(materials[j]), c)
      invariant forall j :: i <= j < materials.Length ==> materials[j] == old(materials[j])
    {
      materials[i] := ApplyConfig(materials[i], c);
    }
  }

  /** Rust's `f32::ceil`. */
  function Ceil(x: real): (r: int)
    ensures x <= r as real < x + 1.0
  {
    -((-x).Floor)
  }

  /**
   * Where the low-res canvas sits in the window: its corners, the render
   * resolution and the integer scale.
   */
  datatype CanvasMetrics = CanvasMetrics(min: (real, real), max: (real, real), rw: real, rh: real, scale: real)

  /** The smallest whole scale, at least 1, at which `rw` by `rh` covers `w` by `h`. */
  function CoverScale(w: real, h: real, rw: real, rh: real): (s: real)
    requires rw > 0.0 && rh > 0.0
    ensures s >= 1.0 && s == s.Floor as real
    ensures s >= w / rw && s >= h / rh
    ensures s > 1.0 ==> s - 1.0 < MaxReal(w / rw, h / rh)
  {
    MaxReal(Ceil(MaxReal(w / rw, h / rh)) as real, 1.0)
  }

  /**
   * The canvas for a window of the given size: the render resolution (each
   * side at least 1) scaled up by the smallest whole factor that covers the
   * window (at least 1), centred on the window.
   */
  function CanvasMetricsFor(winWidth: real, winHeight: real, resolution: (nat, nat)): (r: CanvasMetrics)
    ensures r.rw == Max(resolution.0, 1) as real && r.rh == Max(resolution.1, 1) as real
    ensures r.scale == CoverScale(MaxReal(winWidth, 1.0), MaxReal(winHeight, 1.0), r.rw, r.rh)
  {
    var rw := Max(resolution.0, 1) as real;
    var rh := Max(resolution.1, 1) as real;
    var w := MaxReal(winWidth, 1.0);
    var h := MaxReal(winHeight, 1.0);
    var s := CoverScale(w, h, rw, rh);
    var half := (rw * s * 0.5, rh * s * 0.5);
    var center := (w * 0.5, h * 0.5);
    CanvasMetrics((center.0 - half.0, center.1 - half.1), (center.0 + half.0, center.1 + half.1), rw, rh, s)
  }

  /**
   * The scaled canvas covers the window on both axes, and one step smaller
   * would leave a side uncovered (unless the scale is already 1).
   */
  lemma CoverScaleCovers(w: real, h: real, rw: real, rh: real)
    requires rw > 0.0 && rh > 0.0
    ensures var s := CoverScale(w, h, rw, rh);
      rw * s >= w && rh * s >= h
      && (s > 1.0 ==> rw * (s - 1.0) < w || rh * (s - 1.0) < h)
  {
    var s := CoverScale(w, h, rw, rh);
    ScaleCovers(w, rw, s);
    ScaleCovers(h, rh, s);
    if s > 1.0 {
      if w / rw >= h / rh {
        ScaleTooSmall(w, rw, s - 1.0);
      } else {
        ScaleTooSmall(h, rh, s - 1.0);
      }
    }
  }

  /** The canvas is centred on the window and spans the scaled resolution. */
  lemma CanvasCentered(winWidth: real, winHeight: real, resolution: (nat, nat))
    ensures var m := CanvasMetricsFor(winWidth, winHeight, resolution);
      m.min.0 + m.max.0 == MaxReal(winWidth, 1.0) && m.min.1 + m.max.1 == MaxReal(winHeight, 1.0)
      && m.max.0 - m.min.0 == m.rw * m.scale && m.max.1 - m.min.1 == m.rh * m.scale
  {
  }

  lemma ScaleCovers(w: real, rw: real, s: real)
    requires rw > 0.0 && s >= w / rw
    ensures rw * s >= w
  {
    assert w / rw * rw == w;
    assert s * rw >= w / rw * rw;
  }

  lemma ScaleTooSmall(w: real, rw: real, s: real)
    requires rw > 0.0 && s < w / rw
    ensures rw * s < w
  {
    assert w / rw * rw == w;
    assert s * rw < w / rw * rw;
  }

  /**
   * The low-res pixel under the cursor: none without a cursor, outside the
   * canvas, or when the render target cannot be resolved (`targetOk`);
   * otherwise the cursor's offset from the canvas corner divided by the scale.
   */
  function PsxLocation(cursor: Option<(real, real)>, winWidth: real, winHeight: real,
                       resolution: (nat, nat), targetOk: bool): (r: Option<(real, real)>)
  {
    if cursor.None? then None
    else
      var m := CanvasMetricsFor(winWidth, winHeight, resolution);
      var c := cursor.value;
      if c.0 < m.min.0 || c.0 > m.max.0 || c.1 < m.min.1 || c.1 > m.max.1 then None
      else if !targetOk then None
      else Some(((c.0 - m.min.0) / m.scale, (c.1 - m.min.1) / m.scale))
  }

  /**
   * A cursor on the canvas maps to a pixel inside the render resolution,
   * and a cursor off the canvas maps to nothing.
   */
  lemma PsxLocationInCanvas(cursor: Option<(real, real)>, winWidth: real, winHeight: real,
                            resolution: (nat, nat), targetOk: bool)
    ensures var m := CanvasMetricsFor(winWidth, winHeight, resolution);
      var r := PsxLocation(cursor, winWidth, winHeight, resolution, targetOk);
      (r.Some? <==>
        cursor.Some? && targetOk && m.min.0 <= cursor.value.0 <= m.max.0 && m.min.1 <= cursor.value.1 <= m.max.1)
      && (r.Some? ==> 0.0 <= r.value.0 <= m.rw && 0.0 <= r.value.1 <= m.rh)
  {
    var m := CanvasMetricsFor(winWidth, winHeight, resolution);
    var r := PsxLocation(cursor, winWidth, winHeight, resolution, targetOk);
    CanvasCentered(winWidth, winHeight, resolution);
    if r.Some? {
      var c := cursor.value;
      DivBound(c.0 - m.min.0, m.rw, m.scale);
      DivBound(c.1 - m.min.1, m.rh, m.scale);
    }
  }

  lemma DivBound(x: real, bound: real, s: real)
    requires 0.0 <= x <= bound * s && s > 0.0
    ensures 0.0 <= x / s <= bound
  {
    assert x / s * s == x;
  }
}

/**
 * Specification of the render requests the main window issues: the
 * fixed replot order, the dependency edges between channels, the
 * dependents each image-change slot refreshes, the resize loops and the
 * conversion drivers. The main window's methods are proved to produce
 * exactly these event sequences.
 */
module Pipeline {
  import opened Textures
  import opened ImageWidget2D

  /** No element occurs twice. */
  ghost predicate Distinct<T>(s: seq<T>)
  {
    forall i, j :: 0 <= i < j < |s| ==> s[i] != s[j]
  }

  /** The channels appear in increasing channel index. */
  ghost predicate IncreasingIndex(s: seq<TextureType>)
  {
    forall i, j :: 0 <= i < j < |s| ==> Index(s[i]) < Index(s[j])
  }

  /** The first position of `x` in `s`. */
  function Position<T(==)>(s: seq<T>, x: T): (k: nat)
    requires x in s
    ensures k < |s| && s[k] == x
    ensures x !in s[..k]
  {
    if s[0] == x then 0 else 1 + Position(s[1..], x)
  }

  // ---------------------------------------------------------------------
  // The channel dependency graph

  /** The input a channel's widget is set to; the channels without an
      input selector always render from their own image. */
  datatype Inputs = Inputs(
    normal: InputImageType,
    specular: InputImageType,
    occlusion: InputImageType,
    roughness: InputImageType,
    metallic: InputImageType)

  function InputOf(inputs: Inputs, t: TextureType): InputImageType
  {
    match t
    case Normal => inputs.normal
    case Specular => inputs.specular
    case Occlusion => inputs.occlusion
    case Roughness => inputs.roughness
    case Metallic => inputs.metallic
    case _ => OwnInput
  }

  /** The dependency edge: channel `t`, set to `input`, renders from the
      rendered output of channel `u`. */
  predicate ReadsOutputOf(t: TextureType, input: InputImageType, u: TextureType)
  {
    match input
    case HeightOutput => u == Height && t in {Normal, Specular, Roughness, Metallic}
    case DiffuseOutput => u == Diffuse && t in {Specular, Roughness, Metallic}
    case HeightNormalOutputs => u in {Height, Normal} && t == Occlusion
    case _ => false
  }

  // ---------------------------------------------------------------------
  // replotAllImages

  /** The channels replotAllImages renders, in order: grunge first unless
      a diffuse-to-others conversion is set, then the fixed chain. */
  function ReplotOrder(c: ConversionType): seq<TextureType>
  {
    (if c != DiffuseToOthers then [Grunge] else [])
      + [Diffuse, Roughness, Metallic, Height, Normal, Occlusion, Specular, Material]
  }

  /** A replot renders grunge exactly when no diffuse-to-others conversion
      is set, and renders no channel twice. */
  lemma ReplotOrderShape(c: ConversionType)
    ensures (Grunge in ReplotOrder(c)) <==> c != DiffuseToOthers
    ensures |ReplotOrder(c)| == if c == DiffuseToOthers then 8 else 9
    ensures Distinct(ReplotOrder(c))
  {
  }

  /** Every channel other than grunge is rendered by every replot. */
  lemma ReplotCoversAllButGrunge(c: ConversionType, t: TextureType)
    requires t != Grunge
    ensures t in ReplotOrder(c)
  {
    var order := ReplotOrder(c);
    var g := if c != DiffuseToOthers then 1 else 0;
    match t
    case Diffuse => assert order[g] == t;
    case Roughness => assert order[g + 1] == t;
    case Metallic => assert order[g + 2] == t;
    case Height => assert order[g + 3] == t;
    case Normal => assert order[g + 4] == t;
    case Occlusion => assert order[g + 5] == t;
    case Specular => assert order[g + 6] == t;
    case Material => assert order[g + 7] == t;
  }

  /** One render request per channel of `ts`, in order. */
  function Renders(ts: seq<TextureType>, shadow: bool, c: ConversionType): (evs: seq<Event>)
    ensures |evs| == |ts|
  {
    seq(|ts|, i requires 0 <= i < |ts| => Render(ts[i], shadow, c))
  }

  lemma RendersSnoc(ts: seq<TextureType>, t: TextureType, shadow: bool, c: ConversionType)
    ensures Renders(ts + [t], shadow, c) == Renders(ts, shadow, c) + [Render(t, shadow, c)]
  {
  }

  /** The requests of one replot: every channel of the order rendered in
      shadow mode, then the channel that was active on entry rendered for
      display. */
  function ReplotEvents(active: TextureType, c: ConversionType): seq<Event>
  {
    Renders(ReplotOrder(c), true, c) + [Render(active, false, c)]
  }

  /** Every intermediate render of a replot is a shadow render with the
      current conversion type, and only the last one is displayed; it
      shows the channel that was active on entry. */
  lemma ReplotShadowsAllButLast(active: TextureType, c: ConversionType, k: nat)
    requires k < |ReplotEvents(active, c)|
    ensures ReplotEvents(active, c)[k].Render?
    ensures ReplotEvents(active, c)[k].conversion == c
    ensures ReplotEvents(active, c)[k].shadow <==> k < |ReplotEvents(active, c)| - 1
    ensures k == |ReplotEvents(active, c)| - 1 ==> ReplotEvents(active, c)[k].texture == active
  {
  }

  /** In a sequence without repetitions the first position of an element
      is its only position. */
  lemma PositionOfDistinct<T>(s: seq<T>, k: nat)
    requires Distinct(s) && k < |s|
    ensures Position(s, s[k]) == k
  {
  }

  /** Within one replot a channel is rendered after every channel whose
      output it reads, except roughness and metallic when they read the
      height output. */
  lemma ReplotRespectsDependencies(c: ConversionType, t: TextureType, input: InputImageType, u: TextureType)
    requires ReadsOutputOf(t, input, u)
    requires !(u == Height && t in {Roughness, Metallic})
    ensures u in ReplotOrder(c) && t in ReplotOrder(c)
    ensures Position(ReplotOrder(c), u) < Position(ReplotOrder(c), t)
  {
    ReplotOrderShape(c);
    var order := ReplotOrder(c);
    var g := if c != DiffuseToOthers then 1 else 0;
    assert order[g] == Diffuse && order[g + 1] == Roughness && order[g + 2] == Metallic;
    assert order[g + 3] == Height && order[g + 4] == Normal;
    assert order[g + 5] == Occlusion && order[g + 6] == Specular;
    match input
    case HeightOutput =>
      PositionOfDistinct(order, g + 3);
      if t == Normal {
        PositionOfDistinct(order, g + 4);
      } else {
        PositionOfDistinct(order, g + 6);
      }
    case DiffuseOutput =>
      PositionOfDistinct(order, g);
      if t == Specular {
        PositionOfDistinct(order, g + 6);
      } else if t == Roughness {
        PositionOfDistinct(order, g + 1);
      } else {
        PositionOfDistinct(order, g + 2);
      }
    case HeightNormalOutputs =>
      PositionOfDistinct(order, g + 3);
      PositionOfDistinct(order, g + 4);
      PositionOfDistinct(order, g + 5);
  }

  /** The exception: roughness and metallic are rendered before height,
      so within one replot they read the height output of the previous
      render when set to it. */
  lemma ReplotRendersHeightReadersFirst(c: ConversionType)
    ensures ReadsOutputOf(Roughness, HeightOutput, Height) && ReadsOutputOf(Metallic, HeightOutput, Height)
    ensures Position(ReplotOrder(c), Roughness) < Position(ReplotOrder(c), Height)
    ensures Position(ReplotOrder(c), Metallic) < Position(ReplotOrder(c), Height)
  {
    var order := ReplotOrder(c);
    var g := if c != DiffuseToOthers then 1 else 0;
    assert order[g + 1] == Roughness && order[g + 2] == Metallic && order[g + 3] == Height;
  }

  // ---------------------------------------------------------------------
  // Dependents refreshed when the height, diffuse or normal image changes

  /** What updateHeightImage refreshes, in order: normal, specular,
      occlusion, roughness, metallic, each when it depends on height. */
  function HeightDependents(inputs: Inputs): seq<TextureType>
  {
    (if inputs.normal == HeightOutput then [Normal] else [])
      + (if inputs.specular == HeightOutput then [Specular] else [])
      + (if inputs.occlusion == HeightNormalInputs || inputs.occlusion == HeightNormalOutputs
         then [Occlusion] else [])
      + (if inputs.roughness == HeightOutput then [Roughness] else [])
      + (if inputs.metallic == HeightOutput then [Metallic] else [])
  }

  /** What updateDiffuseImage refreshes: specular, roughness, metallic,
      each when it reads the diffuse output. */
  function DiffuseDependents(inputs: Inputs): seq<TextureType>
  {
    (if inputs.specular == DiffuseOutput then [Specular] else [])
      + (if inputs.roughness == DiffuseOutput then [Roughness] else [])
      + (if inputs.metallic == DiffuseOutput then [Metallic] else [])
  }

  /** What updateNormalImage refreshes: occlusion, when it reads the
      height and normal outputs. */
  function NormalDependents(inputs: Inputs): seq<TextureType>
  {
    if inputs.occlusion == HeightNormalOutputs then [Occlusion] else []
  }

  /** Appending `g`, which is empty or just `t`, keeps a sequence in
      increasing channel order if every channel in it comes before `t`. */
  lemma AppendIncreasing(s: seq<TextureType>, g: seq<TextureType>, t: TextureType)
    requires IncreasingIndex(s)
    requires g == [] || g == [t]
    requires forall x :: x in s ==> Index(x) < Index(t)
    ensures IncreasingIndex(s + g)
    ensures forall x :: x in s + g ==> Index(x) <= Index(t)
  {
    var r := s + g;
    forall i, j | 0 <= i < j < |r| ensures Index(r[i]) < Index(r[j]) {
      if j >= |s| {
        assert r[i] in s;
      }
    }
  }

  /** A height change refreshes exactly the channels that read the height
      output, plus occlusion when it reads the height and normal input
      images. */
  lemma HeightDependentsAreReaders(inputs: Inputs)
    ensures forall t :: t in HeightDependents(inputs) <==>
      ReadsOutputOf(t, InputOf(inputs, t), Height) || (t == Occlusion && inputs.occlusion == HeightNormalInputs)
  {
    var g1: seq<TextureType> := if inputs.normal == HeightOutput then [Normal] else [];
    var g2: seq<TextureType> := if inputs.specular == HeightOutput then [Specular] else [];
    var g3: seq<TextureType> :=
      if inputs.occlusion == HeightNormalInputs || inputs.occlusion == HeightNormalOutputs then [Occlusion] else [];
    var g4: seq<TextureType> := if inputs.roughness == HeightOutput then [Roughness] else [];
    var g5: seq<TextureType> := if inputs.metallic == HeightOutput then [Metallic] else [];
    assert HeightDependents(inputs) == g1 + g2 + g3 + g4 + g5;
    forall t ensures t in HeightDependents(inputs) <==>
      ReadsOutputOf(t, InputOf(inputs, t), Height) || (t == Occlusion && inputs.occlusion == HeightNormalInputs)
    {
      assert t in HeightDependents(inputs) <==> t in g1 || t in g2 || t in g3 || t in g4 || t in g5;
    }
  }

  /** The channels a height change refreshes come in increasing channel
      order. */
  lemma HeightDependentsIncreasing(inputs: Inputs)
    ensures IncreasingIndex(HeightDependents(inputs))
  {
    var g1: seq<TextureType> := if inputs.normal == HeightOutput then [Normal] else [];
    var g2: seq<TextureType> := if inputs.specular == HeightOutput then [Specular] else [];
    var g3: seq<TextureType> :=
      if inputs.occlusion == HeightNormalInputs || inputs.occlusion == HeightNormalOutputs then [Occlusion] else [];
    var g4: seq<TextureType> := if inputs.roughness == HeightOutput then [Roughness] else [];
    var g5: seq<TextureType> := if inputs.metallic == HeightOutput then [Metallic] else [];
    AppendIncreasing([], g1, Normal);
    assert [] + g1 == g1;
    AppendIncreasing(g1, g2, Specular);
    var s2 := g1 + g2;
    AppendIncreasing(s2, g3, Occlusion);
    var s3 := s2 + g3;
    AppendIncreasing(s3, g4, Roughness);
    var s4 := s3 + g4;
    AppendIncreasing(s4, g5, Metallic);
    assert HeightDependents(inputs) == s4 + g5;
  }

  /** A diffuse change refreshes exactly the channels that read the
      diffuse output, in increasing channel order. */
  lemma DiffuseDependentsAreReaders(inputs: Inputs)
    ensures forall t :: t in DiffuseDependents(inputs) <==> ReadsOutputOf(t, InputOf(inputs, t), Diffuse)
    ensures IncreasingIndex(DiffuseDependents(inputs))
  {
    var g1: seq<TextureType> := if inputs.specular == DiffuseOutput then [Specular] else [];
    var g2: seq<TextureType> := if inputs.roughness == DiffuseOutput then [Roughness] else [];
    var g3: seq<TextureType> := if inputs.metallic == DiffuseOutput then [Metallic] else [];
    assert DiffuseDependents(inputs) == g1 + g2 + g3;
    forall t ensures t in DiffuseDependents(inputs) <==> ReadsOutputOf(t, InputOf(inputs, t), Diffuse)
    {
      assert t in DiffuseDependents(inputs) <==> t in g1 || t in g2 || t in g3;
    }
    AppendIncreasing([], g1, Specular);
    assert [] + g1 == g1;
    AppendIncreasing(g1, g2, Roughness);
    var s2 := g1 + g2;
    AppendIncreasing(s2, g3, Metallic);
  }

  /** A normal change refreshes exactly the channels that read the normal
      output. Occlusion set to the height and normal input images is not
      refreshed, unlike on a height change. */
  lemma NormalDependentsAreReaders(inputs: Inputs)
    ensures forall t :: t in NormalDependents(inputs) <==> ReadsOutputOf(t, InputOf(inputs, t), Normal)
    ensures inputs.occlusion == HeightNormalInputs ==>
      Occlusion !in NormalDependents(inputs) && Occlusion in HeightDependents(inputs)
  {
    forall t ensures t in NormalDependents(inputs) <==> ReadsOutputOf(t, InputOf(inputs, t), Normal)
    {
      match t
      case Occlusion =>
      case _ =>
    }
  }

  /** For each dependent: a shadow render of it, then a displayed render of
      the changed channel, which thereby becomes active again. */
  function RefreshEvents(deps: seq<TextureType>, changed: TextureType, c: ConversionType): (evs: seq<Event>)
    ensures |evs| == 2 * |deps|
    decreases |deps|
  {
    if deps == [] then []
    else
      RefreshEvents(deps[..|deps| - 1], changed, c)
        + [Render(deps[|deps| - 1], true, c), Render(changed, false, c)]
  }

  /** The k-th dependent is rendered in shadow mode at position 2k and the
      changed channel is shown again right after it. */
  lemma {:induction false} RefreshEventsAt(deps: seq<TextureType>, changed: TextureType, c: ConversionType, k: nat)
    requires k < |deps|
    ensures RefreshEvents(deps, changed, c)[2 * k] == Render(deps[k], true, c)
    ensures RefreshEvents(deps, changed, c)[2 * k + 1] == Render(changed, false, c)
  {
    var n := |deps| - 1;
    if k < n {
      RefreshEventsAt(deps[..n], changed, c, k);
      assert deps[..n][k] == deps[k];
    }
  }

  /** Appending a dependent appends its two requests. */
  lemma RefreshEventsSnoc(deps: seq<TextureType>, d: TextureType, changed: TextureType, c: ConversionType)
    ensures RefreshEvents(deps + [d], changed, c)
      == RefreshEvents(deps, changed, c) + [Render(d, true, c), Render(changed, false, c)]
  {
    assert (deps + [d])[..|deps|] == deps;
  }

  // ---------------------------------------------------------------------
  // Resize and rescale loops

  /** The requests of the first `n` iterations of the resize loop: for each
      channel index below `n`, a framebuffer resize and a shadow render of
      that channel; grunge is passed over when `skipGrunge` is set. */
  function ResizeEvents(width: int, height: int, c: ConversionType, skipGrunge: bool, n: nat): (evs: seq<Event>)
    requires n <= TextureCount
    ensures |evs| == 2 * (if skipGrunge && n == TextureCount then n - 1 else n)
  {
    if n == 0 then []
    else
      ResizeEvents(width, height, c, skipGrunge, n - 1)
        + (if skipGrunge && TextureAt(n - 1) == Grunge then []
           else [FboResized(width, height), Render(TextureAt(n - 1), true, c)])
  }

  /** A channel is rendered by the first `n` iterations exactly when its
      index is below `n` and it is not a skipped grunge map. */
  lemma {:induction false} ResizeRendersExactly(width: int, height: int, c: ConversionType, skipGrunge: bool, n: nat, t: TextureType)
    requires n <= TextureCount
    ensures Render(t, true, c) in ResizeEvents(width, height, c, skipGrunge, n)
      <==> Index(t) < n && !(skipGrunge && t == Grunge)
  {
    if n > 0 {
      ResizeRendersExactly(width, height, c, skipGrunge, n - 1, t);
      TextureAtIndex(t);
    }
  }

  /** Every request of the loop is a resize to the requested size or a
      shadow render with the current conversion type. */
  lemma {:induction false} ResizeEventsShape(width: int, height: int, c: ConversionType, skipGrunge: bool, n: nat, e: Event)
    requires n <= TextureCount
    requires e in ResizeEvents(width, height, c, skipGrunge, n)
    ensures e == FboResized(width, height) || (e.Render? && e.shadow && e.conversion == c)
  {
    if n > 0 {
      var prev := ResizeEvents(width, height, c, skipGrunge, n - 1);
      if e in prev {
        ResizeEventsShape(width, height, c, skipGrunge, n - 1, e);
      }
    }
  }

  /** All requests of a resize or rescale: the loop, the entry channel
      shown again, then a replot. */
  function ResizeImageEvents(width: int, height: int, active: TextureType, c: ConversionType, skipGrunge: bool): seq<Event>
  {
    ResizeEvents(width, height, c, skipGrunge, TextureCount) + [Render(active, false, c)] + ReplotEvents(active, c)
  }

  // ---------------------------------------------------------------------
  // Conversion drivers

  /** convertFromHtoN: height, then normal, rendered in shadow mode with
      the height-to-normal conversion; then a replot without conversion
      that ends on the normal channel. */
  function HeightToNormalEvents(): seq<Event>
  {
    [Render(Height, true, HeightToNormal), Render(Normal, true, HeightToNormal)]
      + ReplotEvents(Normal, ConvertNone)
  }

  /** convertFromNtoH: height with the (placeholder) height-to-normal
      conversion, then normal and height with the normal-to-height
      conversion, then a replot that keeps that conversion and ends on
      the height channel. */
  function NormalToHeightEvents(): seq<Event>
  {
    [Render(Height, true, HeightToNormal), Render(Normal, true, NormalToHeight), Render(Height, true, NormalToHeight)]
      + ReplotEvents(Height, NormalToHeight)
  }

  /** convertFromHNtoOcc: height, normal and occlusion rendered in shadow
      mode with the occlusion conversion, then a replot that ends on the
      occlusion channel. */
  function HeightNormalToOcclusionEvents(): seq<Event>
  {
    [Render(Height, true, HeightNormalToOcclusion), Render(Normal, true, HeightNormalToOcclusion),
     Render(Occlusion, true, HeightNormalToOcclusion)]
      + ReplotEvents(Occlusion, HeightNormalToOcclusion)
  }

  /** convertFromBase: the diffuse channel is activated with whatever
      shadow flag and conversion were set, a replot runs under the
      diffuse-to-others conversion from the diffuse channel, and the entry
      channel is shown again. */
  function FromBaseEvents(active: TextureType, shadow: bool, c: ConversionType): seq<Event>
  {
    [Render(Diffuse, shadow, c)] + ReplotEvents(Diffuse, DiffuseToOthers) + [Render(active, false, DiffuseToOthers)]
  }

  /** The replot inside convertFromBase never renders the grunge map, and
      the conversion ends on the channel that was active on entry. */
  lemma FromBaseSkipsGrunge(active: TextureType, shadow: bool, c: ConversionType)
    ensures forall k :: 1 <= k < |FromBaseEvents(active, shadow, c)| - 1 ==>
      FromBaseEvents(active, shadow, c)[k].texture != Grunge
    ensures FromBaseEvents(active, shadow, c)[|FromBaseEvents(active, shadow, c)| - 1] == Render(active, false, DiffuseToOthers)
  {
    var evs := FromBaseEvents(active, shadow, c);
    var order := ReplotOrder(DiffuseToOthers);
    ReplotOrderShape(DiffuseToOthers);
    forall k | 1 <= k < |evs| - 1 ensures evs[k].texture != Grunge {
      if k - 1 < |order| {
        assert evs[k] == Render(order[k - 1], true, DiffuseToOthers);
        assert order[k - 1] in order;
      }
    }
  }

  /** After the height-to-normal driver only the two leading requests
      carry the height-to-normal conversion. */
  lemma HeightToNormalConvertsOnce(k: nat)
    requires k < |HeightToNormalEvents()|
    ensures HeightToNormalEvents()[k].Render?
    ensures HeightToNormalEvents()[k].conversion == HeightToNormal <==> k < 2
  {
  }
}

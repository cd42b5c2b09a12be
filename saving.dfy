/**
 * Specification of what the main window writes and reads: which channel
 * widgets saveAllImages saves, and the load/save sequence of the batch
 * run. File I/O itself is recorded as events.
 */
module Saving {
  import opened Wrappers
  import opened Textures
  import opened ImageWidget2D
  import opened Pipeline
  import opened Seqs

  /** A load of an input image or a save of one channel under a name.
      `at` places the event in the 2D widget's trace: it is the number of
      widget requests made before the event. */
  datatype IoEvent =
    | Loaded(path: string, at: nat)
    | Saved(dir: string, texture: TextureType, name: string, at: nat)

  /** The seven "save" check boxes, named as in the window. */
  datatype SaveBoxes = SaveBoxes(
    diffuse: bool, normal: bool, specular: bool, height: bool,
    occlusion: bool, roughness: bool, metallic: bool)

  /** The channel widgets saveAllImages saves, in the order it saves them,
      when every box counts. */
  const FullSaveOrder: seq<TextureType> := [Diffuse, Normal, Specular, Occlusion, Height, Roughness, Metallic]

  /** `[t]` when the box gates the save in checked mode and lets it through. */
  function Gate(checkedOnly: bool, box: bool, t: TextureType): seq<TextureType>
  {
    if !checkedOnly || box then [t] else []
  }

  /** The box that gates channel widget `t` in checked mode: each widget
      its own box, except that the Height box gates the occlusion widget
      and the Occlusion box the height widget. Grunge and material have no
      box and are never saved. */
  function GatingBox(boxes: SaveBoxes, t: TextureType): Option<bool>
  {
    match t
    case Diffuse => Some(boxes.diffuse)
    case Normal => Some(boxes.normal)
    case Specular => Some(boxes.specular)
    case Occlusion => Some(boxes.height)
    case Height => Some(boxes.occlusion)
    case Roughness => Some(boxes.roughness)
    case Metallic => Some(boxes.metallic)
    case Grunge => None
    case Material => None
  }

  /** The channel widgets saved, in saving order. In compressed mode
      nothing is written. */
  function SaveSet(checkedOnly: bool, compressed: bool, boxes: SaveBoxes): (r: seq<TextureType>)
    ensures compressed ==> r == []
    ensures |r| <= |FullSaveOrder|
  {
    if compressed then []
    else
      Gate(checkedOnly, boxes.diffuse, Diffuse)
        + Gate(checkedOnly, boxes.normal, Normal)
        + Gate(checkedOnly, boxes.specular, Specular)
        + Gate(checkedOnly, boxes.height, Occlusion)
        + Gate(checkedOnly, boxes.occlusion, Height)
        + Gate(checkedOnly, boxes.roughness, Roughness)
        + Gate(checkedOnly, boxes.metallic, Metallic)
  }

  /** Outside compressed mode the saves are the seven gates in order. */
  lemma SaveSetExpanded(checkedOnly: bool, boxes: SaveBoxes)
    ensures SaveSet(checkedOnly, false, boxes) ==
      Gate(checkedOnly, boxes.diffuse, Diffuse)
        + Gate(checkedOnly, boxes.normal, Normal)
        + Gate(checkedOnly, boxes.specular, Specular)
        + Gate(checkedOnly, boxes.height, Occlusion)
        + Gate(checkedOnly, boxes.occlusion, Height)
        + Gate(checkedOnly, boxes.roughness, Roughness)
        + Gate(checkedOnly, boxes.metallic, Metallic)
  {
  }

  /** A channel widget is saved exactly when the mode is not compressed,
      it has a gating box, and either every widget is saved or that box is
      checked. */
  lemma SaveSetMembers(checkedOnly: bool, compressed: bool, boxes: SaveBoxes, t: TextureType)
    ensures t in SaveSet(checkedOnly, compressed, boxes) <==>
      !compressed && GatingBox(boxes, t).Some? && (!checkedOnly || GatingBox(boxes, t).value)
  {
    if !compressed {
      var g1 := Gate(checkedOnly, boxes.diffuse, Diffuse);
      var g2 := Gate(checkedOnly, boxes.normal, Normal);
      var g3 := Gate(checkedOnly, boxes.specular, Specular);
      var g4 := Gate(checkedOnly, boxes.height, Occlusion);
      var g5 := Gate(checkedOnly, boxes.occlusion, Height);
      var g6 := Gate(checkedOnly, boxes.roughness, Roughness);
      var g7 := Gate(checkedOnly, boxes.metallic, Metallic);
      SaveSetExpanded(checkedOnly, boxes);
      assert t in SaveSet(checkedOnly, compressed, boxes) <==>
        t in g1 || t in g2 || t in g3 || t in g4 || t in g5 || t in g6 || t in g7;
    }
  }

  /** Outside checked mode every channel widget is saved, in the full
      save order. */
  lemma SaveSetUnchecked(boxes: SaveBoxes)
    ensures SaveSet(false, false, boxes) == FullSaveOrder
  {
  }

  /** The position of a saved channel in the full save order. */
  function SaveRank(t: TextureType): nat
  {
    match t
    case Diffuse => 0
    case Normal => 1
    case Specular => 2
    case Occlusion => 3
    case Height => 4
    case Roughness => 5
    case Metallic => 6
    case _ => 7
  }

  ghost predicate RankSorted(s: seq<TextureType>)
  {
    forall i, j :: 0 <= i < j < |s| ==> SaveRank(s[i]) < SaveRank(s[j])
  }

  lemma AppendGate(s: seq<TextureType>, checkedOnly: bool, box: bool, t: TextureType)
    requires RankSorted(s)
    requires forall x :: x in s ==> SaveRank(x) < SaveRank(t)
    ensures RankSorted(s + Gate(checkedOnly, box, t))
    ensures forall x :: x in s + Gate(checkedOnly, box, t) ==> SaveRank(x) <= SaveRank(t)
  {
    var r := s + Gate(checkedOnly, box, t);
    forall i, j | 0 <= i < j < |r| ensures SaveRank(r[i]) < SaveRank(r[j]) {
      if j >= |s| {
        assert r[i] in s;
      }
    }
  }

  /** Whatever the boxes say, the saves keep the full save order and no
      widget is saved twice. */
  lemma SaveSetKeepsOrder(checkedOnly: bool, compressed: bool, boxes: SaveBoxes)
    ensures RankSorted(SaveSet(checkedOnly, compressed, boxes))
  {
    if !compressed {
      var s0: seq<TextureType> := [];
      AppendGate(s0, checkedOnly, boxes.diffuse, Diffuse);
      var s1 := s0 + Gate(checkedOnly, boxes.diffuse, Diffuse);
      AppendGate(s1, checkedOnly, boxes.normal, Normal);
      var s2 := s1 + Gate(checkedOnly, boxes.normal, Normal);
      AppendGate(s2, checkedOnly, boxes.specular, Specular);
      var s3 := s2 + Gate(checkedOnly, boxes.specular, Specular);
      AppendGate(s3, checkedOnly, boxes.height, Occlusion);
      var s4 := s3 + Gate(checkedOnly, boxes.height, Occlusion);
      AppendGate(s4, checkedOnly, boxes.occlusion, Height);
      var s5 := s4 + Gate(checkedOnly, boxes.occlusion, Height);
      AppendGate(s5, checkedOnly, boxes.roughness, Roughness);
      var s6 := s5 + Gate(checkedOnly, boxes.roughness, Roughness);
      AppendGate(s6, checkedOnly, boxes.metallic, Metallic);
      assert s0 + Gate(checkedOnly, boxes.diffuse, Diffuse) == Gate(checkedOnly, boxes.diffuse, Diffuse);
    }
  }

  /** One save per channel of `ts`, all to `dir` under `name`, with no
      widget request in between: all of them come after request `at`. */
  function SaveEvents(dir: string, ts: seq<TextureType>, name: string, at: nat): (evs: seq<IoEvent>)
    ensures |evs| == |ts|
    ensures forall k :: 0 <= k < |ts| ==> evs[k] == Saved(dir, ts[k], name, at)
  {
    seq(|ts|, k requires 0 <= k < |ts| => Saved(dir, ts[k], name, at))
  }

  lemma SaveEventsSnoc(dir: string, ts: seq<TextureType>, t: TextureType, name: string, at: nat)
    ensures SaveEvents(dir, ts + [t], name, at) == SaveEvents(dir, ts, name, at) + [Saved(dir, t, name, at)]
  {
    assert (ts + [t])[..|ts|] == ts;
  }

  // ---------------------------------------------------------------------
  // runBatch

  /** The path runBatch loads for a listed image. */
  function ImagePath(sourceFolder: string, imageName: string): string
  {
    sourceFolder + "/" + imageName
  }

  /** One batch item: load the image after request `loadAt`, then save
      the texture set under the image's name after request `saveAt`. */
  function ItemIo(sourceFolder: string, outputFolder: string, item: string, saves: seq<TextureType>,
                  loadAt: nat, saveAt: nat): seq<IoEvent>
  {
    [Loaded(ImagePath(sourceFolder, item), loadAt)] + SaveEvents(outputFolder, saves, item, saveAt)
  }

  /** The 2D widget requests of one batch item: the base conversion, then
      the replot of saveAllImages, which keeps the diffuse-to-others
      conversion and restores the active channel. */
  function ItemRenders(active: TextureType, shadow: bool, c: ConversionType): seq<Event>
  {
    FromBaseEvents(active, shadow, c) + ReplotEvents(active, DiffuseToOthers)
  }

  /** The number of widget requests one batch item makes: eleven for the
      conversion from base and nine for the replot of saveAllImages. */
  const ItemRequests: nat := 20

  /** Every batch item makes the same number of requests, whatever the
      widget state it starts from. */
  lemma ItemRendersLength(active: TextureType, shadow: bool, c: ConversionType)
    ensures |ItemRenders(active, shadow, c)| == ItemRequests
  {
  }

  /** The 2D widget requests of the first `n` batch items. Only the first
      item starts from the entry shadow flag and conversion; every later
      one starts with shadow rendering off and the diffuse-to-others
      conversion left by the item before. */
  function BatchRenders(n: nat, active: TextureType, shadow: bool, c: ConversionType): (evs: seq<Event>)
    ensures |evs| == n * ItemRequests
  {
    if n == 0 then []
    else
      ItemRendersLength(active, shadow, c);
      ItemRendersLength(active, false, DiffuseToOthers);
      BatchRenders(n - 1, active, shadow, c)
        + (if n == 1 then ItemRenders(active, shadow, c) else ItemRenders(active, false, DiffuseToOthers))
  }

  /** Appending the renders of item k to those of the first k items gives
      the renders of the first k + 1, which end 20 requests later. */
  lemma BatchRendersExtend(t0: seq<Event>, t1: seq<Event>, t2: seq<Event>, k: nat,
                           active: TextureType, shadow: bool, c: ConversionType)
    requires t1 == t0 + BatchRenders(k, active, shadow, c)
    requires t2 == t1 + (if k == 0 then ItemRenders(active, shadow, c) else ItemRenders(active, false, DiffuseToOthers))
    ensures t2 == t0 + BatchRenders(k + 1, active, shadow, c)
    ensures |t1| == |t0| + k * ItemRequests && |t2| == |t0| + (k + 1) * ItemRequests
  {
    var front := BatchRenders(k, active, shadow, c);
    var item := if k == 0 then ItemRenders(active, shadow, c) else ItemRenders(active, false, DiffuseToOthers);
    AppendAssoc(t0, front, item);
  }

  /** The renders of the first k items start the renders of the first n. */
  lemma {:induction false} BatchRendersPrefix(k: nat, n: nat, active: TextureType, shadow: bool, c: ConversionType)
    requires k <= n
    ensures BatchRenders(k, active, shadow, c) <= BatchRenders(n, active, shadow, c)
    decreases n
  {
    if k < n {
      BatchRendersPrefix(k, n - 1, active, shadow, c);
    }
  }

  /** Requests k * 20 up to (k + 1) * 20 of a batch's renders are exactly
      item k's: its conversion from base, then its replot. */
  lemma BatchItemRenders(n: nat, k: nat, active: TextureType, shadow: bool, c: ConversionType)
    requires k < n
    ensures BatchRenders(n, active, shadow, c)[k * ItemRequests..(k + 1) * ItemRequests]
      == if k == 0 then ItemRenders(active, shadow, c) else ItemRenders(active, false, DiffuseToOthers)
  {
    BatchRendersPrefix(k + 1, n, active, shadow, c);
  }

  /** The I/O of a batch over `items`, processed front to back, when the
      widget trace held `base` requests before the batch: item k is
      loaded before its requests and saved after them. */
  function BatchIo(sourceFolder: string, outputFolder: string, items: seq<string>, saves: seq<TextureType>,
                   base: nat): (evs: seq<IoEvent>)
    decreases |items|
  {
    if items == [] then []
    else
      BatchIo(sourceFolder, outputFolder, items[..|items| - 1], saves, base)
        + ItemIo(sourceFolder, outputFolder, items[|items| - 1], saves,
                 base + (|items| - 1) * ItemRequests, base + |items| * ItemRequests)
  }

  /** The batch over the first k + 1 items extends the batch over the
      first k by item k. */
  lemma BatchIoStep(sourceFolder: string, outputFolder: string, items: seq<string>, k: nat, saves: seq<TextureType>,
                    base: nat)
    requires k < |items|
    ensures BatchIo(sourceFolder, outputFolder, items[..k + 1], saves, base)
      == BatchIo(sourceFolder, outputFolder, items[..k], saves, base)
        + ItemIo(sourceFolder, outputFolder, items[k], saves, base + k * ItemRequests, base + (k + 1) * ItemRequests)
  {
    assert items[..k + 1][..k] == items[..k];
  }

  /** Appending item k's I/O to the I/O of the first k items gives the
      I/O of the first k + 1. */
  lemma BatchIoExtend(io0: seq<IoEvent>, io1: seq<IoEvent>, io2: seq<IoEvent>, sourceFolder: string, outputFolder: string,
                      items: seq<string>, k: nat, saves: seq<TextureType>, base: nat, loadAt: nat, saveAt: nat)
    requires k < |items|
    requires loadAt == base + k * ItemRequests && saveAt == base + (k + 1) * ItemRequests
    requires io1 == io0 + BatchIo(sourceFolder, outputFolder, items[..k], saves, base)
    requires io2 == io1 + ItemIo(sourceFolder, outputFolder, items[k], saves, loadAt, saveAt)
    ensures io2 == io0 + BatchIo(sourceFolder, outputFolder, items[..k + 1], saves, base)
  {
    BatchIoStep(sourceFolder, outputFolder, items, k, saves, base);
    var front := BatchIo(sourceFolder, outputFolder, items[..k], saves, base);
    var item := ItemIo(sourceFolder, outputFolder, items[k], saves, loadAt, saveAt);
    AppendAssoc(io0, front, item);
  }

  /** A batch over N images performs N loads and N complete texture sets. */
  lemma {:induction false} BatchIoLength(sourceFolder: string, outputFolder: string, items: seq<string>,
                                         saves: seq<TextureType>, base: nat)
    ensures |BatchIo(sourceFolder, outputFolder, items, saves, base)| == |items| * (1 + |saves|)
  {
    if items != [] {
      BatchIoLength(sourceFolder, outputFolder, items[..|items| - 1], saves, base);
      assert |items| * (1 + |saves|) == (|items| - 1) * (1 + |saves|) + (1 + |saves|);
    }
  }

  /** The paths loaded by a sequence of I/O events, in order. */
  function Loads(evs: seq<IoEvent>): seq<string>
    decreases |evs|
  {
    if evs == [] then []
    else Loads(evs[..|evs| - 1]) + (if evs[|evs| - 1].Loaded? then [evs[|evs| - 1].path] else [])
  }

  lemma {:induction false} LoadsAppend(a: seq<IoEvent>, b: seq<IoEvent>)
    ensures Loads(a + b) == Loads(a) + Loads(b)
    decreases |b|
  {
    if b != [] {
      var n := |b| - 1;
      assert (a + b)[..|a + b| - 1] == a + b[..n];
      LoadsAppend(a, b[..n]);
    } else {
      assert a + b == a;
    }
  }

  lemma {:induction false} SavesLoadNothing(dir: string, ts: seq<TextureType>, name: string, at: nat)
    ensures Loads(SaveEvents(dir, ts, name, at)) == []
    decreases |ts|
  {
    if ts != [] {
      var evs := SaveEvents(dir, ts, name, at);
      assert evs[..|evs| - 1] == SaveEvents(dir, ts[..|ts| - 1], name, at);
      SavesLoadNothing(dir, ts[..|ts| - 1], name, at);
    }
  }

  /** A batch item loads its own image and nothing else. */
  lemma ItemLoadsOnce(sourceFolder: string, outputFolder: string, item: string, saves: seq<TextureType>,
                      loadAt: nat, saveAt: nat)
    ensures Loads(ItemIo(sourceFolder, outputFolder, item, saves, loadAt, saveAt)) == [ImagePath(sourceFolder, item)]
  {
    var load := Loaded(ImagePath(sourceFolder, item), loadAt);
    LoadsAppend([load], SaveEvents(outputFolder, saves, item, saveAt));
    SavesLoadNothing(outputFolder, saves, item, saveAt);
    assert Loads([load]) == [load.path];
  }

  /** The batch loads the listed images one at a time, in list order, each
      exactly once. */
  lemma {:induction false} BatchLoadsInListOrder(sourceFolder: string, outputFolder: string, items: seq<string>,
                                                 saves: seq<TextureType>, base: nat)
    ensures Loads(BatchIo(sourceFolder, outputFolder, items, saves, base))
      == seq(|items|, k requires 0 <= k < |items| => ImagePath(sourceFolder, items[k]))
    decreases |items|
  {
    if items != [] {
      var n := |items| - 1;
      var front := items[..n];
      var path := ImagePath(sourceFolder, items[n]);
      var itemIo := ItemIo(sourceFolder, outputFolder, items[n], saves, base + n * ItemRequests, base + (n + 1) * ItemRequests);
      LoadsAppend(BatchIo(sourceFolder, outputFolder, front, saves, base), itemIo);
      ItemLoadsOnce(sourceFolder, outputFolder, items[n], saves, base + n * ItemRequests, base + (n + 1) * ItemRequests);
      BatchLoadsInListOrder(sourceFolder, outputFolder, front, saves, base);
      assert seq(|items|, k requires 0 <= k < |items| => ImagePath(sourceFolder, items[k]))
          == seq(n, k requires 0 <= k < n => ImagePath(sourceFolder, front[k])) + [path];
    }
  }

  lemma MulMonotone(a: nat, b: nat, w: nat)
    requires a <= b
    ensures a * w <= b * w
  {
    assert b * w == a * w + (b - a) * w;
  }

  /** Adding an item leaves the I/O of the items before it in place. */
  lemma BatchIoKeepsFront(sourceFolder: string, outputFolder: string, items: seq<string>, saves: seq<TextureType>,
                          base: nat)
    requires items != []
    ensures forall i :: 0 <= i < |BatchIo(sourceFolder, outputFolder, items[..|items| - 1], saves, base)| ==>
      i < |BatchIo(sourceFolder, outputFolder, items, saves, base)|
      && BatchIo(sourceFolder, outputFolder, items, saves, base)[i]
        == BatchIo(sourceFolder, outputFolder, items[..|items| - 1], saves, base)[i]
  {
    var n := |items| - 1;
    BatchIoStep(sourceFolder, outputFolder, items, n, saves, base);
    assert items[..n + 1] == items;
  }

  /** The events of one item: the load, then one save per channel. */
  lemma ItemIoEvents(sourceFolder: string, outputFolder: string, item: string, saves: seq<TextureType>,
                     loadAt: nat, saveAt: nat)
    ensures |ItemIo(sourceFolder, outputFolder, item, saves, loadAt, saveAt)| == 1 + |saves|
    ensures ItemIo(sourceFolder, outputFolder, item, saves, loadAt, saveAt)[0] == Loaded(ImagePath(sourceFolder, item), loadAt)
    ensures forall i :: 1 <= i <= |saves| ==>
      ItemIo(sourceFolder, outputFolder, item, saves, loadAt, saveAt)[i] == Saved(outputFolder, saves[i - 1], item, saveAt)
  {
  }

  /** The last item's I/O follows the I/O of the items before it. */
  lemma BatchIoLastItem(sourceFolder: string, outputFolder: string, items: seq<string>, saves: seq<TextureType>,
                        base: nat, at: nat)
    requires items != [] && at == |BatchIo(sourceFolder, outputFolder, items[..|items| - 1], saves, base)|
    ensures at + 1 + |saves| == |BatchIo(sourceFolder, outputFolder, items, saves, base)|
    ensures BatchIo(sourceFolder, outputFolder, items, saves, base)[at]
      == Loaded(ImagePath(sourceFolder, items[|items| - 1]), base + (|items| - 1) * ItemRequests)
    ensures forall i :: at < i <= at + |saves| ==>
      BatchIo(sourceFolder, outputFolder, items, saves, base)[i]
        == Saved(outputFolder, saves[i - at - 1], items[|items| - 1], base + |items| * ItemRequests)
  {
    var n := |items| - 1;
    BatchIoStep(sourceFolder, outputFolder, items, n, saves, base);
    assert items[..n + 1] == items;
    ItemIoEvents(sourceFolder, outputFolder, items[n], saves, base + n * ItemRequests, base + (n + 1) * ItemRequests);
  }

  /** Item k's I/O sits at its place in the batch's I/O: first the load
      of its own image, stamped at the start of its requests, then its
      save set under its own name, stamped at their end. */
  lemma {:induction false} BatchIoItemEvents(sourceFolder: string, outputFolder: string, items: seq<string>,
                                             saves: seq<TextureType>, base: nat, k: nat)
    requires k < |items|
    ensures |BatchIo(sourceFolder, outputFolder, items, saves, base)| == |items| * (1 + |saves|)
    ensures (k + 1) * (1 + |saves|) <= |items| * (1 + |saves|)
    ensures BatchIo(sourceFolder, outputFolder, items, saves, base)[k * (1 + |saves|)]
      == Loaded(ImagePath(sourceFolder, items[k]), base + k * ItemRequests)
    ensures forall i :: k * (1 + |saves|) < i < (k + 1) * (1 + |saves|) ==>
      BatchIo(sourceFolder, outputFolder, items, saves, base)[i]
        == Saved(outputFolder, saves[i - k * (1 + |saves|) - 1], items[k], base + (k + 1) * ItemRequests)
    decreases |items|
  {
    var n := |items| - 1;
    var width := 1 + |saves|;
    BatchIoLength(sourceFolder, outputFolder, items, saves, base);
    BatchIoLength(sourceFolder, outputFolder, items[..n], saves, base);
    MulMonotone(k + 1, |items|, width);
    if k < n {
      BatchIoItemEvents(sourceFolder, outputFolder, items[..n], saves, base, k);
      BatchIoKeepsFront(sourceFolder, outputFolder, items, saves, base);
      assert items[..n][k] == items[k];
    } else {
      BatchIoLastItem(sourceFolder, outputFolder, items, saves, base, n * width);
    }
  }

  /** The batch's I/O follows the widget trace: every event lies within
      the batch's own requests, and no event is placed before an earlier
      one. BatchIoItemEvents gives each item's own place. */
  lemma {:induction false} BatchIoInTraceOrder(sourceFolder: string, outputFolder: string, items: seq<string>,
                                               saves: seq<TextureType>, base: nat)
    ensures forall i :: 0 <= i < |BatchIo(sourceFolder, outputFolder, items, saves, base)| ==>
      base <= BatchIo(sourceFolder, outputFolder, items, saves, base)[i].at <= base + |items| * ItemRequests
    ensures forall i, j :: 0 <= i < j < |BatchIo(sourceFolder, outputFolder, items, saves, base)| ==>
      BatchIo(sourceFolder, outputFolder, items, saves, base)[i].at
        <= BatchIo(sourceFolder, outputFolder, items, saves, base)[j].at
    decreases |items|
  {
    if items != [] {
      var n := |items| - 1;
      var front := BatchIo(sourceFolder, outputFolder, items[..n], saves, base);
      var mid := base + n * ItemRequests;
      var item := ItemIo(sourceFolder, outputFolder, items[n], saves, mid, mid + ItemRequests);
      BatchIoInTraceOrder(sourceFolder, outputFolder, items[..n], saves, base);
      assert forall i :: 0 <= i < |front| ==> base <= front[i].at <= mid;
      assert forall i :: 0 <= i < |item| ==> mid <= item[i].at <= base + |items| * ItemRequests;
      assert forall i :: 0 < i < |item| ==> item[0].at <= item[i].at;
    }
  }
}

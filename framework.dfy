/**
 * The demo page: one progress bar and three image panels whose files are
 * 699144, 460047 and 426041 bytes long.
 */
module Framework {
  import opened Common
  import opened Events
  import opened Base64
  import opened Progress
  import opened Throttler

  const PngSize: nat := 699144
  const JpgSize: nat := 460047
  const ProgressiveJpgSize: nat := 426041

  /** The largest reported size wins over the slider's initial maximum. */
  lemma DemoMax()
    ensures MaxOf(InitialMax, [PngSize, JpgSize, ProgressiveJpgSize]) == PngSize
  {
    var sizes := [PngSize, JpgSize, ProgressiveJpgSize];
    assert sizes[..2] == [PngSize, JpgSize] && sizes[..2][..1] == [PngSize] && [PngSize][..0] == [];
    assert MaxOf(InitialMax, [PngSize]) == PngSize;
    assert MaxOf(InitialMax, [PngSize, JpgSize]) == PngSize;
  }

  /** Pressing play from 0 with the PNG's size as maximum dispatches 31 offsets, 23304 apart but for the last. */
  lemma DemoOffsets(k: nat)
    requires k < |StepsFrom(0, PngSize)|
    ensures |StepsFrom(0, PngSize)| == 31
    ensures StepsFrom(0, PngSize)[k] == if k < 30 then (k + 1) * 23304 else PngSize
  {
    RestartRunLength(PngSize);
    StepsFromAt(0, PngSize, k);
  }

  /**
   * The JPG panel's clamped count follows the offsets until the 20th one,
   * which is the first beyond its size, and stays at its size after.
   */
  lemma DemoJpgSaturates(k: nat)
    requires k < |StepsFrom(0, PngSize)|
    ensures Min(StepsFrom(0, PngSize)[k], JpgSize) == if k < 19 then (k + 1) * 23304 else JpgSize
  {
    DemoOffsets(k);
  }

  /** The JPG panel's counts over the whole run, from its per-offset clamping. */
  lemma JpgCounts(run: seq<nat>, counts: seq<nat>)
    requires run == StepsFrom(0, PngSize) && |counts| == |run|
    requires forall j :: 0 <= j < |run| ==> counts[j] == Min(run[j], JpgSize)
    ensures |counts| == 31
    ensures forall j :: 0 <= j < 31 ==> counts[j] == if j < 19 then (j + 1) * 23304 else JpgSize
  {
    DemoOffsets(0);
    forall j | 0 <= j < 31
      ensures counts[j] == if j < 19 then (j + 1) * 23304 else JpgSize
    {
      DemoJpgSaturates(j);
    }
  }

  /**
   * The panel shows a prefix of its buffer: by the panel's `Valid`, the first
   * `numBytes` octets of it, as a data URL.
   */
  ghost predicate Shows(p: ImageThrottler)
    reads p
  {
    && p.arrayBuffer.Some?
    && p.shown.Some?
    && p.shown.value <= p.arrayBuffer.value
  }

  /** A valid panel that shows a prefix of its buffer shows its first `numBytes` octets, as a data URL. */
  lemma ShowsCount(p: ImageThrottler)
    requires p.Valid() && Shows(p)
    ensures p.numBytes <= |p.arrayBuffer.value|
    ensures p.shown == Some(p.arrayBuffer.value[..p.numBytes])
    ensures p.src == DataUrl(p.arrayBuffer.value[..p.numBytes])
  {
    assert p.shown.value == p.arrayBuffer.value[..|p.shown.value|];
  }

  /** What a panel holds and displays at one moment. */
  datatype Panel = Panel(buffer: Option<seq<uint8>>, log: seq<Event>, width: nat, height: nat,
                         numBytes: nat, src: string, shown: Option<seq<uint8>>)

  ghost function Snapshot(p: ImageThrottler): Panel
    reads p
  {
    Panel(p.arrayBuffer, p.log, p.width, p.height, p.numBytes, p.src, p.shown)
  }

  /**
   * The panel still has `before`'s buffer, log and size, and shows either its
   * current count or what it showed in `before`.
   */
  ghost predicate Delivered(p: ImageThrottler, before: Panel)
    reads p
  {
    && p.Valid()
    && p.arrayBuffer == before.buffer && p.log == before.log && p.width == before.width && p.height == before.height
    && (Shows(p) || (p.numBytes == before.numBytes && p.src == before.src && p.shown == before.shown))
  }

  /** Appending the next clamped offset keeps `counts` the clamped prefix of `offsets`. */
  lemma ClampedAppend(counts: seq<nat>, offsets: seq<nat>, length: nat, count: nat)
    requires |counts| < |offsets|
    requires forall j :: 0 <= j < |counts| ==> counts[j] == Min(offsets[j], length)
    requires count == Min(offsets[|counts|], length)
    ensures forall j :: 0 <= j <= |counts| ==> (counts + [count])[j] == Min(offsets[j], length)
  {
  }

  /** One SET_PROGRESS event reaches the three panels. */
  method DeliverToAll(a: ImageThrottler, b: ImageThrottler, c: ImageThrottler, n: nat,
                      ghost da: Panel, ghost db: Panel, ghost dc: Panel)
    requires a != b && b != c && a != c
    requires Delivered(a, da) && Delivered(b, db) && Delivered(c, dc)
    requires a.arrayBuffer.Some? && b.arrayBuffer.Some? && c.arrayBuffer.Some?
    modifies a, b, c
    ensures Delivered(a, da) && Delivered(b, db) && Delivered(c, dc)
    ensures a.numBytes == Min(n, |da.buffer.value|) && b.numBytes == Min(n, |db.buffer.value|)
    ensures c.numBytes == Min(n, |dc.buffer.value|)
  {
    a.OnSetProgress(n);
    b.OnSetProgress(n);
    c.OnSetProgress(n);
  }

  /**
   * Every dispatched offset reaches every panel, in dispatch order. Returns
   * the second panel's count after each offset. Each panel keeps its buffer,
   * log and size; one whose count never changed may never have re-rendered,
   * and any other shows its new count.
   */
  method Broadcast(a: ImageThrottler, b: ImageThrottler, c: ImageThrottler, offsets: seq<nat>)
    returns (counts: seq<nat>)
    requires a != b && b != c && a != c
    requires a.Valid() && b.Valid() && c.Valid()
    requires a.arrayBuffer.Some? && b.arrayBuffer.Some? && c.arrayBuffer.Some?
    modifies a, b, c
    ensures Delivered(a, old(Snapshot(a))) && Delivered(b, old(Snapshot(b))) && Delivered(c, old(Snapshot(c)))
    ensures |counts| == |offsets|
    ensures forall j :: 0 <= j < |offsets| ==> counts[j] == Min(offsets[j], |b.arrayBuffer.value|)
    ensures offsets != [] ==> a.numBytes == Min(offsets[|offsets| - 1], |a.arrayBuffer.value|)
    ensures offsets != [] ==> b.numBytes == Min(offsets[|offsets| - 1], |b.arrayBuffer.value|)
    ensures offsets != [] ==> c.numBytes == Min(offsets[|offsets| - 1], |c.arrayBuffer.value|)
  {
    ghost var da, db, dc := Snapshot(a), Snapshot(b), Snapshot(c);
    ghost var aLen, bLen, cLen := |da.buffer.value|, |db.buffer.value|, |dc.buffer.value|;
    counts := [];
    var k := 0;
    while k < |offsets|
      invariant 0 <= k <= |offsets| && |counts| == k
      invariant Delivered(a, da) && Delivered(b, db) && Delivered(c, dc)
      invariant forall j :: 0 <= j < k ==> counts[j] == Min(offsets[j], bLen)
      invariant k > 0 ==> a.numBytes == Min(offsets[k - 1], aLen)
      invariant k > 0 ==> b.numBytes == Min(offsets[k - 1], bLen)
      invariant k > 0 ==> c.numBytes == Min(offsets[k - 1], cLen)
    {
      DeliverToAll(a, b, c, offsets[k], da, db, dc);
      var count := b.numBytes;
      ClampedAppend(counts, offsets, bLen, count);
      counts := counts + [count];
      k := k + 1;
    }
  }

  /**
   * The page loads: three panels, each with its image's bytes, report their
   * sizes to a fresh progress bar, which ends with the PNG's size as maximum.
   */
  method LoadDemo(png: seq<uint8>, jpg: seq<uint8>, progressive: seq<uint8>, imageWidth: nat, imageHeight: nat)
    returns (bar: DataProgressBar, a: ImageThrottler, b: ImageThrottler, c: ImageThrottler)
    requires |png| == PngSize && |jpg| == JpgSize && |progressive| == ProgressiveJpgSize
    requires imageWidth > 0 && imageHeight > 0
    ensures fresh(bar) && fresh(a) && fresh(b) && fresh(c) && a != b && b != c && a != c
    ensures bar.Valid() && !bar.autoProgress && !bar.suspended && bar.value == 0 && bar.max == PngSize
    ensures a.Valid() && b.Valid() && c.Valid()
    ensures a.arrayBuffer == Some(png) && b.arrayBuffer == Some(jpg) && c.arrayBuffer == Some(progressive)
    ensures a.log == [SetMaxProgress(PngSize)] && b.log == [SetMaxProgress(JpgSize)]
    ensures c.log == [SetMaxProgress(ProgressiveJpgSize)]
    ensures bar.sizes == [PngSize, JpgSize, ProgressiveJpgSize] && bar.log == []
    ensures a.numBytes == 0 && b.numBytes == 0 && c.numBytes == 0
    ensures a.src == "/rainbow.png" && b.src == "/rainbow.jpg" && c.src == "/rainbow_progressive.jpg"
    ensures a.shown.None? && b.shown.None? && c.shown.None?
  {
    bar := new DataProgressBar();
    a := new ImageThrottler("/rainbow.png");
    b := new ImageThrottler("/rainbow.jpg");
    c := new ImageThrottler("/rainbow_progressive.jpg");

    a.Initialize(imageWidth, imageHeight, Some(png));
    bar.SetMax(|a.arrayBuffer.value|);
    b.Initialize(imageWidth, imageHeight, Some(jpg));
    bar.SetMax(|b.arrayBuffer.value|);
    c.Initialize(imageWidth, imageHeight, Some(progressive));
    bar.SetMax(|c.arrayBuffer.value|);
    DemoMax();
  }

  /**
   * The page as a whole: the panels load and report their sizes, the user
   * presses play once, and every dispatched offset reaches all panels.
   * Returns the bar's maximum after loading, the JPG panel's count after each
   * dispatched offset, the three panels' final counts and the `src` each
   * panel's image ends with.
   */
  method PlayDemo(png: seq<uint8>, jpg: seq<uint8>, progressive: seq<uint8>, imageWidth: nat, imageHeight: nat)
    returns (maxAfterLoad: nat, jpgCounts: seq<nat>, finalCounts: seq<nat>, finalSrcs: seq<string>)
    requires |png| == PngSize && |jpg| == JpgSize && |progressive| == ProgressiveJpgSize
    requires imageWidth > 0 && imageHeight > 0
    ensures maxAfterLoad == PngSize
    ensures |jpgCounts| == 31
    ensures forall k :: 0 <= k < 31 ==> jpgCounts[k] == if k < 19 then (k + 1) * 23304 else JpgSize
    ensures finalCounts == [PngSize, JpgSize, ProgressiveJpgSize]
    ensures finalSrcs == [DataUrl(png), DataUrl(jpg), DataUrl(progressive)]
  {
    var bar, a, b, c := LoadDemo(png, jpg, progressive, imageWidth, imageHeight);
    maxAfterLoad := bar.max;

    bar.RunUninterrupted();
    var run := StepsFrom(0, bar.max);
    assert PlayRun(0, bar.max) == run && [] + ProgressEvents(run) == ProgressEvents(run);
    assert bar.log == ProgressEvents(run);

    jpgCounts := Broadcast(a, b, c, run);
    DemoOffsets(|run| - 1);
    JpgCounts(run, jpgCounts);
    finalCounts := [a.numBytes, b.numBytes, c.numBytes];
    ShowsCount(a);
    ShowsCount(b);
    ShowsCount(c);
    assert png[..PngSize] == png && jpg[..JpgSize] == jpg && progressive[..ProgressiveJpgSize] == progressive;
    finalSrcs := [a.src, b.src, c.src];
  }
}

/** Unpacking a captured frame into red, green and blue planes, by one thread or by several at once. */
module PixelUnpack {
  import opened ChannelCodes

  type byte = x: int | 0 <= x < 256
  type sample = x: int | 0 <= x < 0x1_0000

  /** A frame of 32-bit pixels (low byte first), `pitch` bytes from row to row. */
  datatype Image = Image(source: seq<byte>, width: nat, height: nat, pitch: nat)

  function PixelStart(im: Image, y: nat, x: nat): nat { y * im.pitch + 4 * x }

  /** The source holds every pixel of the frame. */
  ghost predicate Readable(im: Image) {
    forall y: nat, x: nat | y < im.height && x < im.width :: PixelStart(im, y, x) + 4 <= |im.source|
  }

  function PixelAt(im: Image, y: nat, x: nat): nat
    requires PixelStart(im, y, x) + 4 <= |im.source|
  {
    var s, at := im.source, PixelStart(im, y, x);
    s[at] as int + 0x100 * s[at + 1] as int + 0x1_0000 * s[at + 2] as int + 0x100_0000 * s[at + 3] as int
  }

  function Area(im: Image): nat { im.height * im.width }

  lemma RowsFit(y: nat, end: nat, width: nat)
    requires y < end
    ensures y * width + width <= end * width
  {
    assert y * width + width == (y + 1) * width;
    Grows(y + 1, end, width);
  }

  lemma RowEnds(y: nat, height: nat, width: nat)
    requires y < height
    ensures y * width + width == (y + 1) * width <= height * width
  {
    RowsFit(y, height, width);
  }

  lemma Grows(a: nat, b: nat, width: nat)
    requires a <= b
    ensures a * width <= b * width
  {
  }

  /** An offset names its row and column. */
  lemma RowAndColumn(y: nat, x: nat, width: nat)
    requires x < width
    ensures (y * width + x) / width == y && (y * width + x) % width == x
  {
    DivisionIsUnique(y * width + x, width, y, x);
  }

  lemma InFrame(o: nat, width: nat, height: nat)
    requires o < height * width
    ensures width > 0 && o / width < height && o % width < width
  {
    if width > 0 {
      assert o == width * (o / width) + o % width;
      if o / width >= height { Grows(height, o / width, width); }
    }
  }

  /** One sample, as the code unpacks it. */
  function Code(im: Image, c: Channel, y: nat, x: nat): sample
    requires PixelStart(im, y, x) + 4 <= |im.source|
  {
    UnpackCode(c, PixelAt(im, y, x)) % 0x1_0000
  }

  /** The plane a channel unpacks to. */
  ghost function Plane(im: Image, c: Channel): (r: seq<sample>)
    requires Readable(im)
    ensures |r| == Area(im)
  {
    seq(Area(im), o requires 0 <= o < Area(im) => Sample(im, c, o))
  }

  ghost function Sample(im: Image, c: Channel, o: nat): sample
    requires Readable(im) && o < Area(im)
  {
    InFrame(o, im.width, im.height);
    var y, x := o / im.width, o % im.width;
    assert PixelStart(im, y, x) + 4 <= |im.source|;
    Code(im, c, y, x)
  }

  lemma SampleAt(im: Image, c: Channel, y: nat, x: nat)
    requires Readable(im) && y < im.height && x < im.width
    ensures PixelStart(im, y, x) + 4 <= |im.source|
    ensures y * im.width + x < Area(im)
    ensures Plane(im, c)[y * im.width + x] == Code(im, c, y, x)
  {
    RowsFit(y, im.height, im.width);
    RowAndColumn(y, x, im.width);
  }

  /** The plane agrees with the wanted one from `lo` up to `hi`. */
  ghost predicate Filled(plane: seq<sample>, want: seq<sample>, lo: nat, hi: nat) {
    |plane| == |want| && hi <= |want| && forall o | lo <= o < hi :: plane[o] == want[o]
  }

  // ---------------------------------------------------------------- one thread

  /** Three distinct buffers of the frame's size. */
  predicate Buffers(im: Image, green: array<sample>, blue: array<sample>, red: array<sample>) {
    && green != blue && blue != red && red != green
    && green.Length == blue.Length == red.Length == Area(im)
  }

  datatype Planes = Planes(red: seq<sample>, green: seq<sample>, blue: seq<sample>)

  ghost predicate Sized(p: Planes, n: nat) { |p.red| == |p.green| == |p.blue| == n }

  ghost function PlanesOf(im: Image, channels: seq<Channel>): (p: Planes)
    requires Readable(im) && |channels| == 3
    ensures Sized(p, Area(im))
  {
    Planes(Plane(im, channels[0]), Plane(im, channels[1]), Plane(im, channels[2]))
  }

  /** The plane with one stretch replaced by the wanted one. */
  ghost function Patched(was: seq<sample>, want: seq<sample>, lo: nat, hi: nat): (r: seq<sample>)
    requires |was| == |want| && lo <= hi <= |want|
    ensures |r| == |was| && Filled(r, want, lo, hi)
    ensures forall o | 0 <= o < |r| && !(lo <= o < hi) :: r[o] == was[o]
  {
    was[..lo] + want[lo..hi] + was[hi..]
  }

  lemma PatchOne(was: seq<sample>, want: seq<sample>, lo: nat, hi: nat)
    requires |was| == |want| && lo <= hi < |want|
    ensures Patched(was, want, lo, hi)[hi := want[hi]] == Patched(was, want, lo, hi + 1)
  {
  }

  /** All three planes are patched from `lo` to `hi`. */
  ghost predicate Partial(want: Planes, was: Planes, lo: nat, hi: nat, now: Planes) {
    && Sized(was, |want.red|) && Sized(want, |want.red|) && lo <= hi <= |want.red|
    && now.red == Patched(was.red, want.red, lo, hi)
    && now.green == Patched(was.green, want.green, lo, hi)
    && now.blue == Patched(was.blue, want.blue, lo, hi)
  }

  lemma PartialNext(want: Planes, was: Planes, lo: nat, hi: nat, now: Planes)
    requires Partial(want, was, lo, hi, now) && hi < |want.red|
    ensures Partial(want, was, lo, hi + 1,
                    Planes(now.red[hi := want.red[hi]], now.green[hi := want.green[hi]], now.blue[hi := want.blue[hi]]))
  {
    PatchOne(was.red, want.red, lo, hi);
    PatchOne(was.green, want.green, lo, hi);
    PatchOne(was.blue, want.blue, lo, hi);
  }

  method UnpackPixel(im: Image, y: nat, x: nat, offset: nat,
                     green: array<sample>, blue: array<sample>, red: array<sample>, channels: seq<Channel>)
    requires Readable(im) && y < im.height && x < im.width && |channels| == 3
    requires Buffers(im, green, blue, red) && offset == y * im.width + x < Area(im)
    modifies green, blue, red
    ensures red[..] == old(red[..])[offset := PlanesOf(im, channels).red[offset]]
    ensures green[..] == old(green[..])[offset := PlanesOf(im, channels).green[offset]]
    ensures blue[..] == old(blue[..])[offset := PlanesOf(im, channels).blue[offset]]
  {
    SampleAt(im, channels[0], y, x);
    SampleAt(im, channels[1], y, x);
    SampleAt(im, channels[2], y, x);
    var pixel := PixelAt(im, y, x);
    red[offset] := UnpackCode(channels[0], pixel) % 0x1_0000;
    green[offset] := UnpackCode(channels[1], pixel) % 0x1_0000;
    blue[offset] := UnpackCode(channels[2], pixel) % 0x1_0000;
  }

  /** The patched stretch grows by one pixel, */
  method UnpackNext(im: Image, y: nat, x: nat, offset: nat, ghost want: Planes, ghost was: Planes, ghost lo: nat,
                    green: array<sample>, blue: array<sample>, red: array<sample>, channels: seq<Channel>)
    requires Readable(im) && y < im.height && x < im.width && |channels| == 3
    requires Buffers(im, green, blue, red) && offset == y * im.width + x < Area(im)
    requires want == PlanesOf(im, channels) && Partial(want, was, lo, offset, Planes(red[..], green[..], blue[..]))
    modifies green, blue, red
    ensures Partial(want, was, lo, offset + 1, Planes(red[..], green[..], blue[..]))
  {
    PartialNext(want, was, lo, offset, Planes(red[..], green[..], blue[..]));
    UnpackPixel(im, y, x, offset, green, blue, red, channels);
  }

  /** by one row, */
  method UnpackRow(im: Image, y: nat, rowOffset: nat, ghost want: Planes, ghost was: Planes, ghost lo: nat,
                   green: array<sample>, blue: array<sample>, red: array<sample>, channels: seq<Channel>)
    requires Readable(im) && y < im.height && |channels| == 3
    requires Buffers(im, green, blue, red) && rowOffset == y * im.width && rowOffset + im.width <= Area(im)
    requires want == PlanesOf(im, channels)
    requires Partial(want, was, lo, rowOffset, Planes(red[..], green[..], blue[..]))
    modifies green, blue, red
    ensures Partial(want, was, lo, rowOffset + im.width, Planes(red[..], green[..], blue[..]))
  {
    for x := 0 to im.width
      invariant Partial(want, was, lo, rowOffset + x, Planes(red[..], green[..], blue[..]))
    {
      UnpackNext(im, y, x, rowOffset + x, want, was, lo, green, blue, red, channels);
    }
  }

  lemma PartialEmpty(want: Planes, was: Planes, lo: nat)
    requires Sized(was, |want.red|) && Sized(want, |want.red|) && lo <= |want.red|
    ensures Partial(want, was, lo, lo, was)
  {
    assert was.red[..lo] + was.red[lo..] == was.red;
    assert was.green[..lo] + was.green[lo..] == was.green;
    assert was.blue[..lo] + was.blue[lo..] == was.blue;
  }

  /** and by all rows of a band; nothing outside it is touched. */
  method UnpackIdentityRows(im: Image, firstRow: nat, endRow: nat,
                            green: array<sample>, blue: array<sample>, red: array<sample>, channels: seq<Channel>)
    requires Readable(im) && firstRow <= endRow <= im.height && |channels| == 3 && Buffers(im, green, blue, red)
    modifies green, blue, red
    ensures Partial(PlanesOf(im, channels), Planes(old(red[..]), old(green[..]), old(blue[..])),
                    firstRow * im.width, endRow * im.width, Planes(red[..], green[..], blue[..]))
  {
    ghost var lo, want := firstRow * im.width, PlanesOf(im, channels);
    ghost var was := Planes(red[..], green[..], blue[..]);
    Grows(firstRow, im.height, im.width);
    PartialEmpty(want, was, lo);
    UnpackRows(im, firstRow, endRow, want, was, lo, green, blue, red, channels);
  }

  method UnpackRows(im: Image, firstRow: nat, endRow: nat, ghost want: Planes, ghost was: Planes, ghost lo: nat,
                    green: array<sample>, blue: array<sample>, red: array<sample>, channels: seq<Channel>)
    requires Readable(im) && firstRow <= endRow <= im.height && |channels| == 3 && Buffers(im, green, blue, red)
    requires want == PlanesOf(im, channels)
    requires Partial(want, was, lo, firstRow * im.width, Planes(red[..], green[..], blue[..]))
    modifies green, blue, red
    ensures Partial(want, was, lo, endRow * im.width, Planes(red[..], green[..], blue[..]))
  {
    for y := firstRow to endRow
      invariant Partial(want, was, lo, y * im.width, Planes(red[..], green[..], blue[..]))
    {
      UnpackWholeRow(im, y, want, was, lo, green, blue, red, channels);
    }
  }

  method UnpackWholeRow(im: Image, y: nat, ghost want: Planes, ghost was: Planes, ghost lo: nat,
                        green: array<sample>, blue: array<sample>, red: array<sample>, channels: seq<Channel>)
    requires Readable(im) && y < im.height && |channels| == 3 && Buffers(im, green, blue, red)
    requires want == PlanesOf(im, channels)
    requires Partial(want, was, lo, y * im.width, Planes(red[..], green[..], blue[..]))
    modifies green, blue, red
    ensures Partial(want, was, lo, (y + 1) * im.width, Planes(red[..], green[..], blue[..]))
  {
    RowEnds(y, im.height, im.width);
    UnpackRow(im, y, y * im.width, want, was, lo, green, blue, red, channels);
  }

  lemma WholePatch(want: Planes, was: Planes, now: Planes, hi: nat)
    requires Partial(want, was, 0, hi, now) && hi == |want.red|
    ensures now == want
  {
  }

  method UnpackIdentitySingle(im: Image, green: array<sample>, blue: array<sample>, red: array<sample>, channels: seq<Channel>)
    requires Readable(im) && |channels| == 3 && Buffers(im, green, blue, red)
    modifies green, blue, red
    ensures Planes(red[..], green[..], blue[..]) == PlanesOf(im, channels)
  {
    ghost var was := Planes(red[..], green[..], blue[..]);
    UnpackIdentityRows(im, 0, im.height, green, blue, red, channels);
    WholePatch(PlanesOf(im, channels), was, Planes(red[..], green[..], blue[..]), Area(im));
  }

  /** The sample a channel has at row y and column x: the four source bytes there, lowest first. */
  ghost predicate SampleOf(v: int, im: Image, c: Channel, y: nat, x: nat) {
    var at := y * im.pitch + 4 * x;
    && at + 4 <= |im.source|
    && v == UnpackCode(c, (im.source[at] as int) + 0x100 * (im.source[at + 1] as int)
                          + 0x1_0000 * (im.source[at + 2] as int) + 0x100_0000 * (im.source[at + 3] as int)) % 0x1_0000
  }

  lemma CodeIsSample(im: Image, c: Channel, y: nat, x: nat)
    requires PixelStart(im, y, x) + 4 <= |im.source|
    ensures SampleOf(Code(im, c, y, x), im, c, y, x)
  {
  }

  lemma PlaneShowsPixel(im: Image, c: Channel, y: nat, x: nat)
    requires Readable(im) && y < im.height && x < im.width
    ensures y * im.width + x < |Plane(im, c)| && SampleOf(Plane(im, c)[y * im.width + x], im, c, y, x)
  {
    SampleAt(im, c, y, x);
    CodeIsSample(im, c, y, x);
  }

  /** The unpacked planes are, pixel by pixel, what the frame's rows and columns hold: red from the first
      channel, green from the second, blue from the third. */
  lemma PlanesShowPixels(im: Image, channels: seq<Channel>, y: nat, x: nat)
    requires Readable(im) && |channels| == 3 && y < im.height && x < im.width
    ensures var p, o := PlanesOf(im, channels), y * im.width + x;
            && o < |p.red| == |p.green| == |p.blue|
            && SampleOf(p.red[o], im, channels[0], y, x)
            && SampleOf(p.green[o], im, channels[1], y, x)
            && SampleOf(p.blue[o], im, channels[2], y, x)
  {
    PlaneShowsPixel(im, channels[0], y, x);
    PlaneShowsPixel(im, channels[1], y, x);
    PlaneShowsPixel(im, channels[2], y, x);
  }

  // ---------------------------------------------------------------- several threads

  /** The first row of a thread's band; the band ends where the next begins. */
  function BandStart(height: nat, index: nat, threads: nat): nat
    requires threads > 0
  {
    height * index / threads
  }

  lemma BandsAscend(height: nat, index: nat, threads: nat)
    requires threads > 0
    ensures BandStart(height, 0, threads) == 0 && BandStart(height, threads, threads) == height
    ensures BandStart(height, index, threads) <= BandStart(height, index + 1, threads)
  {
    DivisionIsUnique(0, threads, 0, 0);
    DivisionIsUnique(height * threads, threads, height, 0);
    assert height * (index + 1) == height * index + height;
    QuotientAscends(height * index, height * (index + 1), threads);
  }

  lemma QuotientAscends(a: nat, b: nat, d: nat)
    requires d > 0 && a <= b
    ensures a / d <= b / d
  {
    var p, q := a / d, b / d;
    assert a == d * p + a % d && b == d * q + b % d;
    if p > q { Grows(q + 1, p, d); }
  }

  lemma {:induction false} BandsAscendFar(height: nat, i: nat, j: nat, threads: nat)
    requires threads > 0 && i <= j
    ensures BandStart(height, i, threads) <= BandStart(height, j, threads)
    decreases j - i
  {
    if i < j {
      BandsAscendFar(height, i, j - 1, threads);
      BandsAscend(height, j - 1, threads);
    }
  }

  /** Every row belongs to one band and to one only. */
  lemma {:induction false} RowHasOneBand(height: nat, threads: nat, row: nat, n: nat) returns (owner: nat)
    requires 0 < n <= threads && row < BandStart(height, n, threads)
    ensures owner < n && BandStart(height, owner, threads) <= row < BandStart(height, owner + 1, threads)
    ensures forall i: nat | i < threads && i != owner ::
              !(BandStart(height, i, threads) <= row < BandStart(height, i + 1, threads))
  {
    BandsAscend(height, n - 1, threads);
    if n > 1 && row < BandStart(height, n - 1, threads) {
      owner := RowHasOneBand(height, threads, row, n - 1);
    } else {
      owner := n - 1;
      forall i: nat | i < threads && i != owner
        ensures !(BandStart(height, i, threads) <= row < BandStart(height, i + 1, threads))
      {
        if i < owner { BandsAscendFar(height, i + 1, owner, threads); } else { BandsAscendFar(height, n, i, threads); }
      }
    }
  }

  /** A thread inside unpack_identity_rows: its loop variables, and how many of the pixel's three
      samples (red, green, blue) it has stored. */
  datatype Thread = Thread(y: nat, x: nat, stored: nat, endRow: nat)

  datatype Team = Team(planes: Planes, threads: seq<Thread>)

  function At(th: Thread, width: nat): nat { th.y * width + th.x }

  /** The thread's next access: it unpacks one sample of its pixel and stores it, or moves to the
      next row. */
  ghost function ThreadStep(p: Planes, im: Image, channels: seq<Channel>, th: Thread): (Planes, Thread)
    requires Readable(im) && |channels| == 3 && Sized(p, Area(im)) && th.endRow <= im.height
  {
    if th.y >= th.endRow then (p, th)
    else if th.x >= im.width then (p, Thread(th.y + 1, 0, 0, th.endRow))
    else
      assert PixelStart(im, th.y, th.x) + 4 <= |im.source|;
      RowsFit(th.y, im.height, im.width);
      var o := At(th, im.width);
      if th.stored == 0 then (p.(red := p.red[o := Code(im, channels[0], th.y, th.x)]), th.(stored := 1))
      else if th.stored == 1 then (p.(green := p.green[o := Code(im, channels[1], th.y, th.x)]), th.(stored := 2))
      else (p.(blue := p.blue[o := Code(im, channels[2], th.y, th.x)]), Thread(th.y, th.x + 1, 0, th.endRow))
  }

  ghost predicate Shape(t: Team, im: Image, threads: nat) {
    && Sized(t.planes, Area(im)) && |t.threads| == threads
    && forall i | 0 <= i < threads :: t.threads[i].endRow <= im.height
  }

  ghost function Step(t: Team, im: Image, channels: seq<Channel>, i: nat): Team
    requires Readable(im) && |channels| == 3 && i < |t.threads| && Shape(t, im, |t.threads|)
  {
    var (p, th) := ThreadStep(t.planes, im, channels, t.threads[i]);
    Team(p, t.threads[i := th])
  }

  ghost predicate Launched(t: Team, im: Image, threads: nat)
    requires threads > 0
  {
    && Sized(t.planes, Area(im)) && |t.threads| == threads
    && forall i {:trigger t.threads[i]} | 0 <= i < threads ::
         t.threads[i] == Thread(BandStart(im.height, i, threads), 0, 0, BandStart(im.height, i + 1, threads))
  }

  /** Any interleaving of the threads' accesses. */
  ghost predicate IsRun(teams: seq<Team>, picks: seq<nat>, im: Image, channels: seq<Channel>, threads: nat)
    requires Readable(im) && |channels| == 3 && threads > 0
  {
    && |teams| == |picks| + 1 && Launched(teams[0], im, threads)
    && forall k {:trigger picks[k]} | 0 <= k < |picks| ::
         picks[k] < threads && Shape(teams[k], im, threads) && teams[k + 1] == Step(teams[k], im, channels, picks[k])
  }

  // ---------------------------------------------------------------- what each access keeps

  /** What is finished between `lo` and the pixel at `at`. */
  ghost predicate Progress(p: Planes, want: Planes, at: nat, stored: nat, lo: nat) {
    && lo <= at
    && Filled(p.red, want.red, lo, if stored >= 1 then at + 1 else at)
    && Filled(p.green, want.green, lo, if stored >= 2 then at + 1 else at)
    && Filled(p.blue, want.blue, lo, at)
  }

  /** Loop bounds and finished pixels of a thread whose band begins at `first`. */
  ghost predicate ThreadOk(th: Thread, im: Image, p: Planes, want: Planes, first: nat) {
    && first <= th.y <= th.endRow <= im.height && th.x <= im.width && th.stored <= 2
    && (th.stored > 0 ==> th.y < th.endRow && th.x < im.width) && (th.y == th.endRow ==> th.x == 0)
    && Progress(p, want, At(th, im.width), th.stored, first * im.width)
  }

  /** One sample of the wanted planes put in its place. */
  ghost function Put(p: Planes, want: Planes, k: nat, o: nat): Planes
    requires Sized(p, |want.red|) && Sized(want, |want.red|) && o < |want.red|
  {
    if k == 0 then p.(red := p.red[o := want.red[o]])
    else if k == 1 then p.(green := p.green[o := want.green[o]])
    else p.(blue := p.blue[o := want.blue[o]])
  }

  /** What a thread unpacks from its pixel is the sample the plane wants there. */
  lemma StoreIsPut(p: Planes, im: Image, channels: seq<Channel>, th: Thread)
    requires Readable(im) && |channels| == 3 && Sized(p, Area(im))
    requires th.y < th.endRow <= im.height && th.x < im.width && th.stored <= 2
    ensures At(th, im.width) < Area(im)
    ensures ThreadStep(p, im, channels, th).0 == Put(p, PlanesOf(im, channels), th.stored, At(th, im.width))
  {
    SampleAt(im, channels[th.stored], th.y, th.x);
  }

  /** A sample put in place never undoes what any thread has finished, */
  lemma PutKeepsProgress(p: Planes, want: Planes, k: nat, o: nat, at: nat, stored: nat, lo: nat)
    requires Sized(p, |want.red|) && Sized(want, |want.red|) && o < |want.red| && Progress(p, want, at, stored, lo)
    ensures Progress(Put(p, want, k, o), want, at, stored, lo)
  {
  }

  /** and moves its own thread on. */
  lemma PutAdvances(p: Planes, want: Planes, at: nat, stored: nat, lo: nat)
    requires Sized(p, |want.red|) && Sized(want, |want.red|) && at < |want.red| && stored <= 2
    requires Progress(p, want, at, stored, lo)
    ensures var q := Put(p, want, stored, at);
            if stored < 2 then Progress(q, want, at, stored + 1, lo) else Progress(q, want, at + 1, 0, lo)
  {
  }

  lemma OwnStoreKeeps(p: Planes, im: Image, channels: seq<Channel>, th: Thread, first: nat)
    requires Readable(im) && |channels| == 3 && Sized(p, Area(im)) && th.y < th.endRow && th.x < im.width
    requires ThreadOk(th, im, p, PlanesOf(im, channels), first)
    ensures var (q, next) := ThreadStep(p, im, channels, th);
            Sized(q, Area(im)) && next.endRow == th.endRow && ThreadOk(next, im, q, PlanesOf(im, channels), first)
  {
    StoreIsPut(p, im, channels, th);
    var next := if th.stored < 2 then th.(stored := th.stored + 1) else Thread(th.y, th.x + 1, 0, th.endRow);
    assert ThreadStep(p, im, channels, th).1 == next;
    StoredKeeps(p, im, PlanesOf(im, channels), th, first, next);
  }

  lemma StoredKeeps(p: Planes, im: Image, want: Planes, th: Thread, first: nat, next: Thread)
    requires Sized(p, Area(im)) && Sized(want, Area(im)) && ThreadOk(th, im, p, want, first)
    requires th.y < th.endRow && th.x < im.width && At(th, im.width) < Area(im)
    requires next == if th.stored < 2 then th.(stored := th.stored + 1) else Thread(th.y, th.x + 1, 0, th.endRow)
    ensures ThreadOk(next, im, Put(p, want, th.stored, At(th, im.width)), want, first)
  {
    PutAdvances(p, want, At(th, im.width), th.stored, first * im.width);
    assert At(next, im.width) == if th.stored < 2 then At(th, im.width) else At(th, im.width) + 1;
  }

  lemma NextRow(p: Planes, im: Image, want: Planes, th: Thread, first: nat)
    requires ThreadOk(th, im, p, want, first) && th.y < th.endRow && th.x == im.width
    ensures ThreadOk(Thread(th.y + 1, 0, 0, th.endRow), im, p, want, first)
  {
    assert (th.y + 1) * im.width == th.y * im.width + im.width;
  }

  lemma OwnStepKeeps(p: Planes, im: Image, channels: seq<Channel>, th: Thread, first: nat)
    requires Readable(im) && |channels| == 3 && Sized(p, Area(im))
    requires ThreadOk(th, im, p, PlanesOf(im, channels), first)
    ensures var (q, next) := ThreadStep(p, im, channels, th);
            Sized(q, Area(im)) && next.endRow == th.endRow && ThreadOk(next, im, q, PlanesOf(im, channels), first)
  {
    if th.y < th.endRow && th.x < im.width {
      OwnStoreKeeps(p, im, channels, th, first);
    } else if th.y < th.endRow {
      NextRow(p, im, PlanesOf(im, channels), th, first);
    }
  }

  lemma OtherStepKeeps(p: Planes, im: Image, channels: seq<Channel>, th: Thread, first: nat, other: Thread, otherFirst: nat)
    requires Readable(im) && |channels| == 3 && Sized(p, Area(im))
    requires ThreadOk(th, im, p, PlanesOf(im, channels), first) && ThreadOk(other, im, p, PlanesOf(im, channels), otherFirst)
    ensures ThreadOk(other, im, ThreadStep(p, im, channels, th).0, PlanesOf(im, channels), otherFirst)
  {
    if th.y < th.endRow && th.x < im.width {
      StoreIsPut(p, im, channels, th);
      PutKeepsThread(p, im, PlanesOf(im, channels), th.stored, At(th, im.width), other, otherFirst);
    }
  }

  lemma PutKeepsThread(p: Planes, im: Image, want: Planes, k: nat, o: nat, other: Thread, first: nat)
    requires Sized(p, |want.red|) && Sized(want, |want.red|) && o < |want.red| && ThreadOk(other, im, p, want, first)
    ensures ThreadOk(other, im, Put(p, want, k, o), want, first)
  {
    PutKeepsProgress(p, want, k, o, At(other, im.width), other.stored, first * im.width);
  }

  ghost predicate Inv(t: Team, im: Image, want: Planes, threads: nat)
    requires threads > 0
  {
    && Sized(t.planes, Area(im)) && |t.threads| == threads
    && forall i {:trigger t.threads[i]} | 0 <= i < threads ::
         && t.threads[i].endRow == BandStart(im.height, i + 1, threads)
         && ThreadOk(t.threads[i], im, t.planes, want, BandStart(im.height, i, threads))
  }

  lemma StepKeeps(t: Team, im: Image, channels: seq<Channel>, threads: nat, i: nat)
    requires Readable(im) && |channels| == 3 && 0 < threads && i < threads
    requires Inv(t, im, PlanesOf(im, channels), threads)
    ensures Shape(t, im, threads) && Inv(Step(t, im, channels, i), im, PlanesOf(im, channels), threads)
  {
    var u := Step(t, im, channels, i);
    var firsts := seq(threads, j requires 0 <= j => BandStart(im.height, j, threads));
    OwnStepKeeps(t.planes, im, channels, t.threads[i], firsts[i]);
    forall j {:trigger u.threads[j]} | 0 <= j < threads
      ensures u.threads[j].endRow == BandStart(im.height, j + 1, threads)
      ensures ThreadOk(u.threads[j], im, u.planes, PlanesOf(im, channels), BandStart(im.height, j, threads))
    {
      if j != i { OtherStepKeeps(t.planes, im, channels, t.threads[i], firsts[i], t.threads[j], firsts[j]); }
    }
  }

  lemma LaunchedKeeps(t: Team, im: Image, want: Planes, threads: nat)
    requires 0 < threads && Launched(t, im, threads) && Sized(want, Area(im))
    ensures Inv(t, im, want, threads)
  {
    forall i {:trigger t.threads[i]} | 0 <= i < threads
      ensures ThreadOk(t.threads[i], im, t.planes, want, BandStart(im.height, i, threads))
    {
      BandsAscend(im.height, i, threads);
      BandsAscendFar(im.height, i + 1, threads, threads);
      Grows(BandStart(im.height, i, threads), im.height, im.width);
    }
  }

  lemma {:induction false} RunKeeps(teams: seq<Team>, picks: seq<nat>, im: Image, channels: seq<Channel>, threads: nat, n: nat)
    requires Readable(im) && |channels| == 3 && threads > 0 && IsRun(teams, picks, im, channels, threads) && n <= |picks|
    ensures Inv(teams[n], im, PlanesOf(im, channels), threads)
  {
    if n > 0 {
      RunKeeps(teams, picks, im, channels, threads, n - 1);
      StepKeeps(teams[n - 1], im, channels, threads, picks[n - 1]);
    } else {
      LaunchedKeeps(teams[0], im, PlanesOf(im, channels), threads);
    }
  }

  // ---------------------------------------------------------------- what every run satisfies

  lemma OffsetHasBand(im: Image, threads: nat, o: nat) returns (owner: nat)
    requires threads > 0 && o < Area(im)
    ensures owner < threads
    ensures BandStart(im.height, owner, threads) * im.width <= o < BandStart(im.height, owner + 1, threads) * im.width
  {
    var row := RowOf(o, im.width, im.height);
    BandsAscend(im.height, 0, threads);
    owner := RowHasOneBand(im.height, threads, row, threads);
    RowInBand(o, im.width, row, BandStart(im.height, owner, threads), BandStart(im.height, owner + 1, threads));
  }

  lemma RowOf(o: nat, width: nat, height: nat) returns (row: nat)
    requires o < height * width
    ensures row < height && width * row <= o < width * row + width
  {
    InFrame(o, width, height);
    row := o / width;
    assert o == width * row + o % width;
  }

  lemma RowInBand(o: nat, width: nat, row: nat, lo: nat, hi: nat)
    requires width * row <= o < width * row + width && lo <= row < hi
    ensures lo * width <= o < hi * width
  {
    Grows(lo, row, width);
    RowsFit(row, hi, width);
  }

  /** All threads have left their loops. */
  ghost predicate AllDone(t: Team) {
    forall i | 0 <= i < |t.threads| :: t.threads[i].y >= t.threads[i].endRow
  }

  /** However the threads interleave, once all are done the planes are those of the single-threaded
      unpack. */
  lemma ParallelEqualsSingle(teams: seq<Team>, picks: seq<nat>, im: Image, channels: seq<Channel>, threads: nat, n: nat)
    requires Readable(im) && |channels| == 3 && threads > 0 && IsRun(teams, picks, im, channels, threads) && n <= |picks|
    requires AllDone(teams[n])
    ensures teams[n].planes == PlanesOf(im, channels)
  {
    RunKeeps(teams, picks, im, channels, threads, n);
    AllFilled(teams[n], PlanesOf(im, channels), im, threads);
  }

  lemma AllFilled(t: Team, want: Planes, im: Image, threads: nat)
    requires threads > 0 && Inv(t, im, want, threads) && Sized(want, Area(im)) && AllDone(t)
    ensures t.planes == want
  {
    forall o | 0 <= o < Area(im)
      ensures t.planes.red[o] == want.red[o] && t.planes.green[o] == want.green[o] && t.planes.blue[o] == want.blue[o]
    {
      var owner := OffsetHasBand(im, threads, o);
      assert ThreadOk(t.threads[owner], im, t.planes, want, BandStart(im.height, owner, threads));
    }
    assert t.planes.red == want.red && t.planes.green == want.green && t.planes.blue == want.blue;
  }

  /** No two threads ever work on the same pixel: the earlier band's thread stays ahead. */
  lemma NoRace(teams: seq<Team>, picks: seq<nat>, im: Image, channels: seq<Channel>, threads: nat, n: nat, i: nat, j: nat)
    requires Readable(im) && |channels| == 3 && threads > 0 && IsRun(teams, picks, im, channels, threads) && n <= |picks|
    requires i < j < |teams[n].threads|
    requires teams[n].threads[i].y < teams[n].threads[i].endRow && teams[n].threads[i].x < im.width
    ensures At(teams[n].threads[i], im.width) < At(teams[n].threads[j], im.width)
  {
    RunKeeps(teams, picks, im, channels, threads, n);
    var a, b := teams[n].threads[i], teams[n].threads[j];
    BandsAscendFar(im.height, i + 1, j, threads);
    assert a.y < b.y;
    RowsFit(a.y, b.y, im.width);
  }

  /** The accesses a thread still has to make. */
  function ToDo(th: Thread, width: nat): int {
    if th.y >= th.endRow then 0 else 3 * (th.endRow * width - At(th, width)) - th.stored + (th.endRow - th.y)
  }

  function Remaining(threads: seq<Thread>, width: nat): int {
    if threads == [] then 0 else Remaining(threads[..|threads| - 1], width) + ToDo(threads[|threads| - 1], width)
  }

  lemma {:induction false} RemainingChanges(threads: seq<Thread>, width: nat, i: nat, th: Thread)
    requires i < |threads|
    ensures Remaining(threads[i := th], width) == Remaining(threads, width) - ToDo(threads[i], width) + ToDo(th, width)
  {
    var last := |threads| - 1;
    if i < last {
      RemainingChanges(threads[..last], width, i, th);
      assert threads[i := th][..last] == threads[..last][i := th];
    } else {
      assert threads[i := th][..last] == threads[..last];
    }
  }

  lemma StepCounts(p: Planes, im: Image, channels: seq<Channel>, th: Thread, first: nat, want: Planes)
    requires Readable(im) && |channels| == 3 && Sized(p, Area(im)) && ThreadOk(th, im, p, want, first)
    ensures ToDo(th, im.width) >= 0
    ensures ToDo(ThreadStep(p, im, channels, th).1, im.width) == ToDo(th, im.width) - (if th.y < th.endRow then 1 else 0)
  {
    if th.y < th.endRow {
      RowsFit(th.y, th.endRow, im.width);
      assert (th.y + 1) * im.width == th.y * im.width + im.width;
    }
  }

  /** Each access of an unfinished thread takes one from those still to come, so a run that keeps
      choosing unfinished threads ends. */
  lemma EachStepCounts(teams: seq<Team>, picks: seq<nat>, im: Image, channels: seq<Channel>, threads: nat, n: nat)
    requires Readable(im) && |channels| == 3 && threads > 0 && IsRun(teams, picks, im, channels, threads) && n < |picks|
    ensures picks[n] < |teams[n].threads|
    ensures var th := teams[n].threads[picks[n]];
            Remaining(teams[n + 1].threads, im.width)
            == Remaining(teams[n].threads, im.width) - (if th.y < th.endRow then 1 else 0)
  {
    RunKeeps(teams, picks, im, channels, threads, n);
    TeamCounts(teams[n], im, channels, threads, picks[n]);
  }

  lemma TeamCounts(t: Team, im: Image, channels: seq<Channel>, threads: nat, i: nat)
    requires Readable(im) && |channels| == 3 && 0 < threads && i < threads
    requires Shape(t, im, threads) && Inv(t, im, PlanesOf(im, channels), threads)
    ensures Remaining(Step(t, im, channels, i).threads, im.width)
            == Remaining(t.threads, im.width) - (if t.threads[i].y < t.threads[i].endRow then 1 else 0)
  {
    var th, first := t.threads[i], BandStart(im.height, i, threads);
    assert ThreadOk(th, im, t.planes, PlanesOf(im, channels), first);
    StepCounts(t.planes, im, channels, th, first, PlanesOf(im, channels));
    RemainingChanges(t.threads, im.width, i, ThreadStep(t.planes, im, channels, th).1);
  }
}

// The output-stats recorder: one event a second folded into one point a window,
// with the reconnect edge carried from one window to the next.
module OutputStats {
  import opened Text

  // The fields the recorder reads. None is a missing value, or one of the wrong
  // type or not finite.
  datatype Streaming = Streaming(active: Option<bool>, reconnecting: Option<bool>, kbps: Option<real>, totalBytes: Option<real>,
                                 droppedFrames: Option<real>, totalFrames: Option<real>, dropPercent: Option<real>,
                                 congestion: Option<real>, encodeSkippedFrames: Option<real>, encodeTotalFrames: Option<real>,
                                 encodeLagPercent: Option<real>, targetBitrate: Option<real>)
  datatype Render = Render(activeFps: Option<real>, targetFps: Option<real>, avgFrameRenderMs: Option<real>,
                           totalFrames: Option<real>, laggedFrames: Option<real>, renderLagPercent: Option<real>)
  datatype Event = Event(streaming: Option<Streaming>, recordingActive: Option<bool>, render: Option<Render>,
                         cpuPercent: Option<real>, memoryRssBytes: Option<real>)

  datatype Field = Float(value: real) | Int(n: int) | Bool(b: bool)
  type Point = map<string, Field>

  // `events` and `times` are history: what the window was folded from, and when.
  datatype Window = Window(latest: Event, congestionMax: Option<real>, kbpsMin: Option<real>, reconnects: nat,
                           events: seq<Event>, times: seq<int>)

  predicate IsActive(e: Event) { e.streaming.Some? && e.streaming.value.active == Some(true) }

  predicate IsReconnecting(e: Event) { IsActive(e) && e.streaming.value.reconnecting == Some(true) }

  // ── One point ─────────────────────────────────────────────────────────────

  function Trunc(v: real): int { if v >= 0.0 then v.Floor else -((-v).Floor) }

  /** Only the fraction is lost: the whole number next to v on the side of zero. */
  lemma TruncIs(v: real)
    ensures v >= 0.0 ==> 0.0 <= Trunc(v) as real <= v < Trunc(v) as real + 1.0
    ensures v < 0.0 ==> Trunc(v) as real - 1.0 < v <= Trunc(v) as real <= 0.0
  {
  }

  function WithFloat(p: Point, name: string, v: Option<real>): Point { if v.Some? then p[name := Float(v.value)] else p }
  function WithInt(p: Point, name: string, v: Option<real>): Point { if v.Some? then p[name := Int(Trunc(v.value))] else p }
  function WithBool(p: Point, name: string, v: Option<bool>): Point { if v.Some? then p[name := Bool(v.value)] else p }

  function LinkFields(p: Point, s: Streaming, w: Window): Point {
    var p := WithBool(p, "reconnecting", s.reconnecting);
    var p := WithFloat(p, "kbps", s.kbps);
    var p := WithFloat(p, "kbps_min", w.kbpsMin);
    var p := WithInt(p, "total_bytes", s.totalBytes);
    var p := WithInt(p, "dropped_frames", s.droppedFrames);
    var p := WithInt(p, "total_frames", s.totalFrames);
    WithFloat(p, "drop_pct", s.dropPercent)
  }

  function EncodeFields(p: Point, s: Streaming, w: Window): Point {
    var p := WithFloat(p, "congestion", s.congestion);
    var p := WithFloat(p, "congestion_max", w.congestionMax);
    var p := WithInt(p, "encode_skipped_frames", s.encodeSkippedFrames);
    var p := WithInt(p, "encode_total_frames", s.encodeTotalFrames);
    var p := WithFloat(p, "encode_lag_pct", s.encodeLagPercent);
    WithInt(p, "video_bitrate_target_kbps", s.targetBitrate)
  }

  function StreamingFields(p: Point, s: Streaming, w: Window): Point {
    var p := WithBool(p, "streaming_active", s.active);
    if s.active != Some(true) then p else EncodeFields(LinkFields(p, s, w), s, w)
  }

  function RenderFields(p: Point, r: Render): Point {
    var p := WithFloat(p, "render_active_fps", r.activeFps);
    var p := WithFloat(p, "render_target_fps", r.targetFps);
    var p := WithFloat(p, "render_avg_frame_ms", r.avgFrameRenderMs);
    var p := WithInt(p, "render_total_frames", r.totalFrames);
    var p := WithInt(p, "render_lagged_frames", r.laggedFrames);
    WithFloat(p, "render_lag_pct", r.renderLagPercent)
  }

  function CoreFields(w: Window): Point {
    var s := w.latest.streaming;
    var p := if s.Some? then StreamingFields(map[], s.value, w) else map[];
    if s.Some? || w.reconnects > 0 then p["reconnects" := Int(w.reconnects)] else p
  }

  function OtherFields(p: Point, e: Event): Point {
    var p := WithBool(p, "recording_active", e.recordingActive);
    var p := if e.render.Some? then RenderFields(p, e.render.value) else p;
    var p := WithFloat(p, "obs_cpu_pct", e.cpuPercent);
    WithInt(p, "obs_memory_rss_bytes", e.memoryRssBytes)
  }

  function Fields(w: Window): Point { OtherFields(CoreFields(w), w.latest) }

  /** None when the window carries no usable field at all. */
  function ToPoint(w: Window): Option<Point> { if Fields(w) == map[] then None else Some(Fields(w)) }

  function Get(p: Point, name: string): Option<Field> { if name in p then Some(p[name]) else None }

  /** The reconnects a point reports; a window without a point reports none. */
  function Reported(p: Option<Point>): int {
    if p.Some? && Get(p.value, "reconnects").Some? && p.value["reconnects"].Int? then p.value["reconnects"].n else 0
  }

  lemma RenderKeeps(p: Point, r: Render, name: string)
    requires name == "reconnects" || name == "congestion_max" || name == "kbps_min"
    ensures Get(RenderFields(p, r), name) == Get(p, name)
  {
  }

  lemma OthersKeep(p: Point, e: Event, name: string)
    requires name == "reconnects" || name == "congestion_max" || name == "kbps_min"
    ensures Get(OtherFields(p, e), name) == Get(p, name)
  {
    var p1 := WithBool(p, "recording_active", e.recordingActive);
    if e.render.Some? { RenderKeeps(p1, e.render.value, name); }
    hide RenderFields;
  }

  /** No reconnect is lost with a discarded point. */
  lemma PointReportsReconnects(w: Window)
    ensures Reported(ToPoint(w)) == w.reconnects
  {
    OthersKeep(CoreFields(w), w.latest, "reconnects");
    hide StreamingFields, OtherFields;
    if Fields(w) == map[] { assert Get(Fields(w), "reconnects") == None; }
  }

  lemma StreamingCarries(s: Streaming, w: Window)
    requires s.active == Some(true)
    ensures w.congestionMax.Some? ==> Get(StreamingFields(map[], s, w), "congestion_max") == Some(Float(w.congestionMax.value))
    ensures w.kbpsMin.Some? ==> Get(StreamingFields(map[], s, w), "kbps_min") == Some(Float(w.kbpsMin.value))
  {
  }

  /** The extremes a point carries are those of its whole window, while the
      stream is active at its end. */
  lemma PointCarriesExtremes(w: Window)
    requires IsActive(w.latest)
    ensures ToPoint(w).Some?
    ensures var p := ToPoint(w).value;
      && (w.congestionMax.Some? ==> Get(p, "congestion_max") == Some(Float(w.congestionMax.value)))
      && (w.kbpsMin.Some? ==> Get(p, "kbps_min") == Some(Float(w.kbpsMin.value)))
  {
    StreamingCarries(w.latest.streaming.value, w);
    OthersKeep(CoreFields(w), w.latest, "reconnects");
    OthersKeep(CoreFields(w), w.latest, "congestion_max");
    OthersKeep(CoreFields(w), w.latest, "kbps_min");
    hide StreamingFields, OtherFields;
    assert "reconnects" in Fields(w);
  }

  // ── The recorder ──────────────────────────────────────────────────────────

  // A closed window, the point it gave, and whether an event closed it or a detach.
  datatype Closed = Closed(window: Window, point: Option<Point>, byEvent: bool)

  // `flushed` is history: the closed windows.
  datatype State = State(window: Option<Window>, windowStart: int, wasReconnecting: bool, flushed: seq<Closed>)

  const START := State(None, 0, false, [])

  // What reaches the recorder: an event (None for a payload that is no object)
  // with the clock's reading, or the session's detach.
  datatype Input = Record(event: Option<Event>, at: int) | Flush

  function MaxOf(a: Option<real>, v: real): Option<real> { Some(if a.Some? && a.value > v then a.value else v) }
  function MinOf(a: Option<real>, v: real): Option<real> { Some(if a.Some? && a.value < v then a.value else v) }

  function Folded(w: Window, e: Event, at: int, was: bool): Window {
    var now := w.(latest := e, events := w.events + [e], times := w.times + [at],
                  reconnects := w.reconnects + (if IsReconnecting(e) && !was then 1 else 0));
    if !IsActive(e) then now
    else
      var s := e.streaming.value;
      now.(congestionMax := if s.congestion.Some? then MaxOf(w.congestionMax, s.congestion.value) else w.congestionMax,
           kbpsMin := if s.kbps.Some? then MinOf(w.kbpsMin, s.kbps.value) else w.kbpsMin)
  }

  function Flushed(s: State, byEvent: bool): State {
    if s.window.None? then s
    else s.(window := None, flushed := s.flushed + [Closed(s.window.value, ToPoint(s.window.value), byEvent)])
  }

  function Next(s: State, input: Input, intervalMs: int): State {
    match input
    case Flush => Flushed(s, false)
    case Record(None, _) => s
    case Record(Some(e), at) =>
      var after := Recorded(s, e, at);
      if at - after.windowStart >= intervalMs then Flushed(after, true) else after
  }

  function Recorded(s: State, e: Event, at: int): State {
    var begun := if s.window.Some? then s else s.(window := Some(Window(e, None, None, 0, [], [])), windowStart := at);
    begun.(window := Some(Folded(begun.window.value, e, at, s.wasReconnecting)), wasReconnecting := IsReconnecting(e))
  }

  function After(inputs: seq<Input>, intervalMs: int): State {
    if inputs == [] then START else Next(After(inputs[..|inputs| - 1], intervalMs), inputs[|inputs| - 1], intervalMs)
  }

  /** The events among the inputs. */
  function Events(inputs: seq<Input>): seq<Event> {
    if inputs == [] then []
    else
      var rest, last := Events(inputs[..|inputs| - 1]), inputs[|inputs| - 1];
      if last.Record? && last.event.Some? then rest + [last.event.value] else rest
  }

  // ── Conservation ──────────────────────────────────────────────────────────

  predicate LastReconnecting(events: seq<Event>) { events != [] && IsReconnecting(events[|events| - 1]) }

  /** The false-to-true edges of `reconnecting`. */
  function Edges(events: seq<Event>): nat {
    if events == [] then 0
    else
      var rest, last := events[..|events| - 1], events[|events| - 1];
      Edges(rest) + (if IsReconnecting(last) && !LastReconnecting(rest) then 1 else 0)
  }

  function Written(flushed: seq<Closed>): int {
    if flushed == [] then 0 else Written(flushed[..|flushed| - 1]) + Reported(flushed[|flushed| - 1].point)
  }

  function Open(s: State): nat { if s.window.Some? then s.window.value.reconnects else 0 }

  lemma FlushConserves(s: State, byEvent: bool)
    ensures Written(Flushed(s, byEvent).flushed) + Open(Flushed(s, byEvent)) == Written(s.flushed) + Open(s)
  {
    if s.window.Some? {
      PointReportsReconnects(s.window.value);
      hide ToPoint;
      assert Flushed(s, byEvent).flushed[..|s.flushed|] == s.flushed;
    }
  }

  lemma RecordCountsEdge(s: State, e: Event, at: int)
    ensures Recorded(s, e, at).flushed == s.flushed
    ensures Open(Recorded(s, e, at)) == Open(s) + (if IsReconnecting(e) && !s.wasReconnecting then 1 else 0)
  {
  }

  lemma EdgesNext(events: seq<Event>, e: Event)
    ensures Edges(events + [e]) == Edges(events) + (if IsReconnecting(e) && !LastReconnecting(events) then 1 else 0)
    ensures LastReconnecting(events + [e]) == IsReconnecting(e)
  {
    assert (events + [e])[..|events|] == events;
  }

  /** Over any stream of events and detaches, the reconnects written in all points
      plus those of the open window are exactly the edges, also across window
      boundaries and windows whose point was discarded. */
  lemma {:induction false} ReconnectsConserved(inputs: seq<Input>, intervalMs: int)
    ensures var s := After(inputs, intervalMs);
      && ReportedIn(PointsOf(s.flushed)) + Open(s) == Edges(Events(inputs))
      && s.wasReconnecting == LastReconnecting(Events(inputs))
  {
    hide ToPoint, Written, ReportedIn, PointsOf, Edges, LastReconnecting, Open, Recorded;
    if inputs != [] {
      var before, last := inputs[..|inputs| - 1], inputs[|inputs| - 1];
      ReconnectsConserved(before, intervalMs);
      var s := After(before, intervalMs);
      WrittenReport(s.flushed);
      if last.Flush? {
        FlushConserves(s, false);
      } else if last.event.Some? {
        RecordCountsEdge(s, last.event.value, last.at);
        RecordedNow(s, last.event.value, last.at);
        EdgesNext(Events(before), last.event.value);
        FlushConserves(Recorded(s, last.event.value, last.at), true);
      }
    } else {
      Nothing();
    }
    WrittenReport(After(inputs, intervalMs).flushed);
  }

  lemma RecordedNow(s: State, e: Event, at: int)
    ensures Recorded(s, e, at).wasReconnecting == IsReconnecting(e)
    ensures OpenEvents(Recorded(s, e, at)) == OpenEvents(s) + [e]
  {
  }

  lemma Nothing()
    ensures Written([]) == 0 && Edges([]) == 0 && !LastReconnecting([]) && Open(START) == 0
  {
  }

  // ── True extremes ─────────────────────────────────────────────────────────

  /** The readings of an active stream in a window. */
  function Congestion(e: Event): Option<real> { if IsActive(e) then e.streaming.value.congestion else None }
  function Kbps(e: Event): Option<real> { if IsActive(e) then e.streaming.value.kbps else None }

  ghost predicate IsMax(m: Option<real>, events: seq<Event>) {
    && (forall e :: e in events && Congestion(e).Some? ==> m.Some? && Congestion(e).value <= m.value)
    && (m.Some? ==> exists e :: e in events && Congestion(e) == m)
  }

  ghost predicate IsMin(m: Option<real>, events: seq<Event>) {
    && (forall e :: e in events && Kbps(e).Some? ==> m.Some? && m.value <= Kbps(e).value)
    && (m.Some? ==> exists e :: e in events && Kbps(e) == m)
  }

  ghost predicate TrueWindow(w: Window) {
    w.events != [] && w.latest == w.events[|w.events| - 1] && IsMax(w.congestionMax, w.events) && IsMin(w.kbpsMin, w.events)
  }

  lemma FoldedIsTrue(w: Window, e: Event, at: int, was: bool)
    requires TrueWindow(w) || w == Window(e, None, None, 0, [], [])
    ensures TrueWindow(Folded(w, e, at, was))
  {
    var after := Folded(w, e, at, was);
    assert e in after.events && forall x :: x in w.events ==> x in after.events;
    assert forall x :: x in after.events ==> x in w.events || x == e;
    MaxGrows(w, e, after.congestionMax, after.events);
    MinGrows(w, e, after.kbpsMin, after.events);
  }

  lemma MaxGrows(w: Window, e: Event, m: Option<real>, events: seq<Event>)
    requires IsMax(w.congestionMax, w.events)
    requires forall x :: x in events <==> x in w.events || x == e
    requires m == if Congestion(e).Some? then MaxOf(w.congestionMax, Congestion(e).value) else w.congestionMax
    ensures IsMax(m, events)
  {
    if m.Some? {
      if m == w.congestionMax {
        var x :| x in w.events && Congestion(x) == m;
        assert x in events;
      } else {
        assert e in events && Congestion(e) == m;
      }
    }
  }

  lemma MinGrows(w: Window, e: Event, m: Option<real>, events: seq<Event>)
    requires IsMin(w.kbpsMin, w.events)
    requires forall x :: x in events <==> x in w.events || x == e
    requires m == if Kbps(e).Some? then MinOf(w.kbpsMin, Kbps(e).value) else w.kbpsMin
    ensures IsMin(m, events)
  {
    if m.Some? {
      if m == w.kbpsMin {
        var x :| x in w.events && Kbps(x) == m;
        assert x in events;
      } else {
        assert e in events && Kbps(e) == m;
      }
    }
  }

  function Concat(flushed: seq<Closed>): seq<Event> {
    if flushed == [] then [] else Concat(flushed[..|flushed| - 1]) + flushed[|flushed| - 1].window.events
  }

  function OpenEvents(s: State): seq<Event> { if s.window.Some? then s.window.value.events else [] }

  ghost predicate WindowsTrue(s: State) {
    && (s.window.Some? ==> TrueWindow(s.window.value))
    && (forall f :: f in s.flushed ==> TrueWindow(f.window) && f.point == ToPoint(f.window))
  }

  lemma FlushKeepsWindows(s: State, byEvent: bool)
    requires WindowsTrue(s)
    ensures WindowsTrue(Flushed(s, byEvent))
    ensures Concat(Flushed(s, byEvent).flushed) + OpenEvents(Flushed(s, byEvent)) == Concat(s.flushed) + OpenEvents(s)
  {
    hide ToPoint, TrueWindow;
    if s.window.Some? {
      assert Flushed(s, byEvent).flushed[..|s.flushed|] == s.flushed;
    }
  }

  lemma RecordKeepsWindows(s: State, e: Event, at: int)
    requires WindowsTrue(s)
    ensures WindowsTrue(Recorded(s, e, at))
    ensures Recorded(s, e, at).flushed == s.flushed && OpenEvents(Recorded(s, e, at)) == OpenEvents(s) + [e]
  {
    hide ToPoint, TrueWindow;
    FoldedIsTrue(if s.window.Some? then s.window.value else Window(e, None, None, 0, [], []), e, at, s.wasReconnecting);
    hide Folded;
    RecordedNow(s, e, at);
  }

  /** Over any stream: every event falls into exactly one window, in order, and
      each window's extremes are those of its active samples. */
  lemma {:induction false} WindowsPartitionEvents(inputs: seq<Input>, intervalMs: int)
    ensures var s := After(inputs, intervalMs);
      WindowsTrue(s) && Concat(s.flushed) + OpenEvents(s) == Events(inputs)
  {
    hide ToPoint, WindowsTrue, Concat, OpenEvents, Recorded;
    if inputs != [] {
      var before, last := inputs[..|inputs| - 1], inputs[|inputs| - 1];
      WindowsPartitionEvents(before, intervalMs);
      var s := After(before, intervalMs);
      if last.Flush? {
        FlushKeepsWindows(s, false);
      } else if last.event.Some? {
        RecordKeepsWindows(s, last.event.value, last.at);
        FlushKeepsWindows(Recorded(s, last.event.value, last.at), true);
      }
    } else {
      NoWindows();
    }
  }

  lemma NoWindows()
    ensures WindowsTrue(START) && Concat(START.flushed) + OpenEvents(START) == []
  {
  }

  // ── When a window closes ──────────────────────────────────────────────────

  /** When the events among the inputs came. */
  function Times(inputs: seq<Input>): seq<int> {
    if inputs == [] then []
    else
      var rest, last := Times(inputs[..|inputs| - 1]), inputs[|inputs| - 1];
      if last.Record? && last.event.Some? then rest + [last.at] else rest
  }

  predicate InOrder(times: seq<int>) { forall i, j :: 0 <= i <= j < |times| ==> times[i] <= times[j] }

  /** From the first event of a window to its last. */
  function Length(w: Window): int
    requires w.times != []
  {
    w.times[|w.times| - 1] - w.times[0]
  }

  /** An open window has not reached the interval. */
  ghost predicate OpenTimed(w: Window, intervalMs: int) {
    |w.times| == |w.events| > 0 && InOrder(w.times) && Length(w) < intervalMs
  }

  /** A window an event closed has reached the interval with its last event and not
      before; one a detach closed never did. */
  ghost predicate ClosedTimed(c: Closed, intervalMs: int) {
    var w := c.window;
    && |w.times| == |w.events| > 0 && InOrder(w.times)
    && (forall i :: 0 <= i < |w.times| - 1 ==> w.times[i] - w.times[0] < intervalMs)
    && (Length(w) >= intervalMs <==> c.byEvent)
  }

  ghost predicate Timed(s: State, intervalMs: int, times: seq<int>) {
    && (s.window.Some? ==>
          && OpenTimed(s.window.value, intervalMs) && s.windowStart == s.window.value.times[0]
          && forall t :: t in s.window.value.times ==> t in times)
    && (forall c :: c in s.flushed ==> ClosedTimed(c, intervalMs))
  }

  lemma RecordKeepsTimed(s: State, e: Event, at: int, intervalMs: int, times: seq<int>)
    requires Timed(s, intervalMs, times) && forall t :: t in times ==> t <= at
    ensures Timed(Next(s, Record(Some(e), at), intervalMs), intervalMs, times + [at])
  {
    hide ToPoint;
    var after := Recorded(s, e, at);
    var had := if s.window.Some? then s.window.value.times else [];
    assert after.window.Some? && after.flushed == s.flushed;
    assert after.window.value.times == had + [at] && |after.window.value.events| == |had| + 1;
    assert after.windowStart == after.window.value.times[0];
    assert forall i :: 0 <= i < |had| ==> had[i] in had;
    hide Recorded;
    if at - after.windowStart >= intervalMs {
      assert ClosedTimed(Closed(after.window.value, ToPoint(after.window.value), true), intervalMs);
    }
  }

  /** Over any stream with a clock that does not go back: a window stays open exactly
      until an event comes an interval or more after its first, and that event is its
      last. */
  lemma {:induction false} WindowsCloseOnTime(inputs: seq<Input>, intervalMs: int)
    requires InOrder(Times(inputs))
    ensures var s := After(inputs, intervalMs);
      && (s.window.Some? ==> OpenTimed(s.window.value, intervalMs))
      && (forall c :: c in s.flushed ==> ClosedTimed(c, intervalMs))
      && Timed(s, intervalMs, Times(inputs))
  {
    if inputs != [] {
      var before, last := inputs[..|inputs| - 1], inputs[|inputs| - 1];
      var times := Times(before);
      assert forall i :: 0 <= i < |times| ==> times[i] == Times(inputs)[i];
      WindowsCloseOnTime(before, intervalMs);
      var s := After(before, intervalMs);
      if last.Record? && last.event.Some? {
        forall t | t in times ensures t <= last.at {
          var i :| 0 <= i < |times| && times[i] == t;
          assert Times(inputs)[i] <= Times(inputs)[|times|];
        }
        hide Next, Timed;
        RecordKeepsTimed(s, last.event.value, last.at, intervalMs, times);
        TimedMeans(Next(s, last, intervalMs), intervalMs, times + [last.at]);
      } else {
        hide ToPoint;
        if last.Flush? && s.window.Some? { assert ClosedTimed(Closed(s.window.value, ToPoint(s.window.value), false), intervalMs); }
      }
    }
  }

  lemma TimedMeans(s: State, intervalMs: int, times: seq<int>)
    requires Timed(s, intervalMs, times)
    ensures s.window.Some? ==> OpenTimed(s.window.value, intervalMs)
    ensures forall c :: c in s.flushed ==> ClosedTimed(c, intervalMs)
  {
  }

  // ── Every field of a point ────────────────────────────────────────────────

  function FloatField(v: Option<real>): Option<Field> { if v.Some? then Some(Float(v.value)) else None }
  function IntField(v: Option<real>): Option<Field> { if v.Some? then Some(Int(Trunc(v.value))) else None }
  function BoolField(v: Option<bool>): Option<Field> { if v.Some? then Some(Bool(v.value)) else None }

  /** The reading a field of that name stands for. */
  function FieldOf(name: string, w: Window): Option<Field> {
    var e := w.latest;
    var live := if IsActive(e) then e.streaming else None;
    match name
    case "streaming_active" => if e.streaming.Some? then BoolField(e.streaming.value.active) else None
    case "reconnects" => if e.streaming.Some? || w.reconnects > 0 then Some(Int(w.reconnects)) else None
    case "recording_active" => BoolField(e.recordingActive)
    case "obs_cpu_pct" => FloatField(e.cpuPercent)
    case "obs_memory_rss_bytes" => IntField(e.memoryRssBytes)
    case _ =>
      var streaming := if live.Some? then LiveField(name, live.value, w) else None;
      if streaming.Some? then streaming else if e.render.Some? then RenderField(name, e.render.value) else None
  }

  function LiveField(name: string, s: Streaming, w: Window): Option<Field> {
    if EncodeField(name, s, w).Some? then EncodeField(name, s, w) else LinkField(name, s, w)
  }

  function LinkField(name: string, s: Streaming, w: Window): Option<Field> {
    match name
    case "reconnecting" => BoolField(s.reconnecting)
    case "kbps" => FloatField(s.kbps)
    case "kbps_min" => FloatField(w.kbpsMin)
    case "total_bytes" => IntField(s.totalBytes)
    case "dropped_frames" => IntField(s.droppedFrames)
    case "total_frames" => IntField(s.totalFrames)
    case "drop_pct" => FloatField(s.dropPercent)
    case _ => None
  }

  function EncodeField(name: string, s: Streaming, w: Window): Option<Field> {
    match name
    case "congestion" => FloatField(s.congestion)
    case "congestion_max" => FloatField(w.congestionMax)
    case "encode_skipped_frames" => IntField(s.encodeSkippedFrames)
    case "encode_total_frames" => IntField(s.encodeTotalFrames)
    case "encode_lag_pct" => FloatField(s.encodeLagPercent)
    case "video_bitrate_target_kbps" => IntField(s.targetBitrate)
    case _ => None
  }

  function RenderField(name: string, r: Render): Option<Field> {
    match name
    case "render_active_fps" => FloatField(r.activeFps)
    case "render_target_fps" => FloatField(r.targetFps)
    case "render_avg_frame_ms" => FloatField(r.avgFrameRenderMs)
    case "render_total_frames" => IntField(r.totalFrames)
    case "render_lagged_frames" => IntField(r.laggedFrames)
    case "render_lag_pct" => FloatField(r.renderLagPercent)
    case _ => None
  }

  lemma LinkFieldsAre(p: Point, s: Streaming, w: Window, name: string)
    ensures Get(LinkFields(p, s, w), name) == if LinkField(name, s, w).Some? then LinkField(name, s, w) else Get(p, name)
  {
  }

  lemma EncodeFieldsAre(p: Point, s: Streaming, w: Window, name: string)
    ensures Get(EncodeFields(p, s, w), name) == if EncodeField(name, s, w).Some? then EncodeField(name, s, w) else Get(p, name)
  {
  }

  lemma StreamingFieldsAre(s: Streaming, w: Window, name: string)
    ensures Get(StreamingFields(map[], s, w), name) ==
      if s.active == Some(true) && LiveField(name, s, w).Some? then LiveField(name, s, w)
      else if name == "streaming_active" then BoolField(s.active) else None
  {
    var p := WithBool(map[], "streaming_active", s.active);
    LinkFieldsAre(p, s, w, name);
    EncodeFieldsAre(LinkFields(p, s, w), s, w, name);
    hide LinkFields, EncodeFields, LinkField, EncodeField;
  }

  lemma RenderFieldsAre(p: Point, r: Render, name: string)
    ensures Get(RenderFields(p, r), name) == if RenderField(name, r).Some? then RenderField(name, r) else Get(p, name)
  {
  }

  /** A point has exactly the fields its window has readings for, each with its own. */
  lemma PointFieldsAre(w: Window, name: string)
    ensures Get(Fields(w), name) == FieldOf(name, w)
  {
    OtherFieldsAre(CoreFields(w), w.latest, name);
    CoreFieldsAre(w, name);
    hide CoreFields, OtherFields, LiveField, RenderField, OtherField, CoreField;
    NamesApart(name, w);
  }

  function OtherField(name: string, e: Event): Option<Field> {
    match name
    case "recording_active" => BoolField(e.recordingActive)
    case "obs_cpu_pct" => FloatField(e.cpuPercent)
    case "obs_memory_rss_bytes" => IntField(e.memoryRssBytes)
    case _ => if e.render.Some? then RenderField(name, e.render.value) else None
  }

  function CoreField(name: string, w: Window): Option<Field> {
    var s := w.latest.streaming;
    if name == "reconnects" then (if s.Some? || w.reconnects > 0 then Some(Int(w.reconnects)) else None)
    else if s.Some? && s.value.active == Some(true) && LiveField(name, s.value, w).Some? then LiveField(name, s.value, w)
    else if s.Some? && name == "streaming_active" then BoolField(s.value.active) else None
  }

  lemma OtherFieldsAre(p: Point, e: Event, name: string)
    ensures Get(OtherFields(p, e), name) == if OtherField(name, e).Some? then OtherField(name, e) else Get(p, name)
  {
    var p1 := WithBool(p, "recording_active", e.recordingActive);
    if e.render.Some? { RenderFieldsAre(p1, e.render.value, name); }
    NotRender(name, e.render);
    hide RenderFields, RenderField;
  }

  /** The names outside the render block are not in it. */
  lemma NotRender(name: string, r: Option<Render>)
    ensures name in {"recording_active", "obs_cpu_pct", "obs_memory_rss_bytes"} && r.Some? ==> RenderField(name, r.value).None?
  {
  }

  lemma CoreFieldsAre(w: Window, name: string)
    ensures Get(CoreFields(w), name) == CoreField(name, w)
  {
    if w.latest.streaming.Some? { StreamingFieldsAre(w.latest.streaming.value, w, name); }
    hide StreamingFields, LiveField;
  }

  lemma NamesApart(name: string, w: Window)
    ensures FieldOf(name, w) == if OtherField(name, w.latest).Some? then OtherField(name, w.latest) else CoreField(name, w)
  {
  }

  // ── The recorder as it runs ───────────────────────────────────────────────

  /** The points the closed windows gave, in order. */
  function PointsOf(flushed: seq<Closed>): seq<Point> {
    if flushed == [] then []
    else
      var rest, last := PointsOf(flushed[..|flushed| - 1]), flushed[|flushed| - 1];
      if last.point.Some? then rest + [last.point.value] else rest
  }

  function ReportedIn(points: seq<Point>): int {
    if points == [] then 0 else ReportedIn(points[..|points| - 1]) + Reported(Some(points[|points| - 1]))
  }

  /** What the written points report is all the closed windows counted. */
  lemma {:induction false} WrittenReport(flushed: seq<Closed>)
    ensures ReportedIn(PointsOf(flushed)) == Written(flushed)
  {
    if flushed != [] {
      WrittenReport(flushed[..|flushed| - 1]);
      var rest, last := PointsOf(flushed[..|flushed| - 1]), flushed[|flushed| - 1];
      if last.point.Some? { assert (rest + [last.point.value])[..|rest|] == rest; }
    }
  }

  class OutputStatsRecorder {
    const intervalMs: int
    var window: Option<Window>
    var windowStart: int
    var wasReconnecting: bool
    var written: seq<Point>
    ghost var flushed: seq<Closed>

    constructor (intervalMs: int)
      ensures this.intervalMs == intervalMs && Now() == START && Valid()
    {
      this.intervalMs := intervalMs;
      window, windowStart, wasReconnecting, written, flushed := None, 0, false, [], [];
    }

    /** What has been written is exactly what the closed windows gave. */
    ghost predicate Valid()
      reads this
    {
      written == PointsOf(flushed)
    }

    ghost function Now(): State
      reads this
    {
      State(window, windowStart, wasReconnecting, flushed)
    }

    method RecordEvent(raw: Option<Event>, t: int)
      requires Valid()
      modifies this
      ensures Valid() && Now() == Next(old(Now()), Record(raw, t), intervalMs)
    {
      hide ToPoint;
      if raw.None? { return; }
      var event := raw.value;
      if window.None? {
        window := Some(Window(event, None, None, 0, [], []));
        windowStart := t;
      }
      var w := window.value.(latest := event, events := window.value.events + [event], times := window.value.times + [t]);
      var reconnecting := IsReconnecting(event);
      if reconnecting && !wasReconnecting { w := w.(reconnects := w.reconnects + 1); }
      wasReconnecting := reconnecting;
      if IsActive(event) {
        var s := event.streaming.value;
        if s.congestion.Some? { w := w.(congestionMax := MaxOf(w.congestionMax, s.congestion.value)); }
        if s.kbps.Some? { w := w.(kbpsMin := MinOf(w.kbpsMin, s.kbps.value)); }
      }
      window := Some(w);
      if t - windowStart >= intervalMs { FlushWindow(true); }
    }

    /** Writes the open window's point, if it has one, and starts over. */
    method FlushWindow(ghost byEvent: bool)
      requires Valid()
      modifies this
      ensures Valid() && Now() == Flushed(old(Now()), byEvent)
      ensures written == old(written) +
        (if old(window).Some? && ToPoint(old(window).value).Some? then [ToPoint(old(window).value).value] else [])
    {
      hide ToPoint;
      if window.None? { return; }
      var point := ToPoint(window.value);
      assert (flushed + [Closed(window.value, point, byEvent)])[..|flushed|] == flushed;
      flushed := flushed + [Closed(window.value, point, byEvent)];
      window := None;
      if point.Some? { written := written + [point.value]; }
    }
  }
}

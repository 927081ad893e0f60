/** From boot to boot (internal/agent/update.go): what re-driving an interrupted
    update by its marker comes to, and who starts passes. */
module UpdateResume {
  import opened Common
  import opened Fleet
  import opened World
  import opened UpdateSpec
  import opened UpdateTheorems
  import UpdateAgent
  import Throttle
  import SingleFlight

  /** What starts a pass: a command, the daily tick, or a boot that finds the marker. */
  datatype Start = Command(id: string) | Tick | Boot

  /** One start and the way it goes. */
  datatype Turn = Turn(start: Start, fates: seq<Fate>)

  /** The id of the pass that is started, if there is one. */
  function IdOf(start: Start, file: Marker): Option<string> {
    match start
    case Command(id) => Some(id)
    case Tick => Some("")
    case Boot => if file.inProgress then Some(file.updateId) else None
  }

  function Taken(w: World, manifest: Option<Manifest>, t: Turn): World {
    var id := IdOf(t.start, w.file);
    if id.None? then w else UpdateAll(w.(fates := t.fates), manifest, id.value).w
  }

  /** The turns one after the other, all on one device and one marker. */
  function Life(w: World, manifest: Option<Manifest>, turns: seq<Turn>): World {
    if turns == [] then w else Taken(Life(w, manifest, turns[..|turns| - 1]), manifest, turns[|turns| - 1])
  }

  /** Announcements and markers of this update only. */
  ghost predicate Underway(id: string, ms: seq<Event>) {
    forall e :: e in ms ==> e in {Report(Started, id), Committed(Marker(true, id))}
  }

  /** The update's marks when it is over: the marker cleared, and then the one
      terminal report, unless the process died between the two. */
  ghost predicate Over(id: string, ms: seq<Event>, reported: bool) {
    if reported then
      && |ms| >= 2 && ms[|ms| - 1] in {Report(Ok, id), Report(Failed, id)}
      && ms[|ms| - 2] == Committed(CLEAR) && Underway(id, ms[..|ms| - 2])
    else
      |ms| >= 1 && ms[|ms| - 1] == Committed(CLEAR) && Underway(id, ms[..|ms| - 1])
  }

  /** The marks ms have led from the update's marker to what the file says now. */
  ghost predicate Driven(id: string, ms: seq<Event>, file: Marker) {
    if file.inProgress then file == Marker(true, id) && Underway(id, ms)
    else file == CLEAR && (Over(id, ms, true) || Over(id, ms, false))
  }

  lemma OnePass(id: string, ms: seq<Event>, w: World, manifest: Option<Manifest>)
    requires Underway(id, ms) && w.file == Marker(true, id)
    ensures var r := UpdateAll(w, manifest, id); var news := News(Mark, w, r.w);
      Marked(news, w, r.w) && (WriteFailed !in news ==> Driven(id, ms + news, r.w.file))
  {
    hide Select, UpdateAll;
    MarkerSafety(w, manifest, id);
    var r := UpdateAll(w, manifest, id);
    var news := News(Mark, w, r.w);
    if WriteFailed !in news {
      MarksDrive(id, ms, news, w.file, r);
    }
  }

  lemma MarksDrive(id: string, ms: seq<Event>, news: seq<Event>, file: Marker, r: Outcome<PassEnd>)
    requires Underway(id, ms) && file == Marker(true, id) && PassMarks(id, news, file, r) && WriteFailed !in news
    ensures Driven(id, ms + news, r.w.file)
  {
    var n := if id != "" then 1 else 0;
    assert forall i :: 0 <= i < |news| ==> news[i] in news;
    if |news| <= n + 1 {
      assert forall i :: 0 <= i < |news| ==> news[i] in {Report(Started, id), Committed(Marker(true, id))};
    } else {
      var last := if |news| == n + 2 then 1 else 2;
      var begun := news[..n + 1];
      assert forall i :: 0 <= i < |begun| ==> begun[i] in {Report(Started, id), Committed(Marker(true, id))};
      assert (ms + news)[..|ms + news| - last] == ms + begun;
    }
  }

  /** However often an update is cut, by its own restarts or by crashes, every boot
      goes on with that update and no other, until one pass clears the marker. */
  lemma {:induction false} BootsDrive(w: World, manifest: Option<Manifest>, turns: seq<Turn>, id: string)
    returns (ms: seq<Event>)
    requires w.file == Marker(true, id) && forall k :: 0 <= k < |turns| ==> turns[k].start.Boot?
    ensures var w' := Life(w, manifest, turns);
      Marked(ms, w, w') && (WriteFailed !in ms ==> Driven(id, ms, w'.file))
  {
    hide Select, UpdateAll, Driven;
    if turns == [] {
      ms := [];
      assert Driven(id, [], w.file) by { NothingDriven(id); }
    } else {
      var init, last := turns[..|turns| - 1], turns[|turns| - 1];
      ms := BootsDrive(w, manifest, init, id);
      var v := Life(w, manifest, init);
      assert last.start.Boot?;
      if v.file.inProgress {
        var start := v.(fates := last.fates);
        MarkerSafety(start, manifest, v.file.updateId);
        var news := News(Mark, start, UpdateAll(start, manifest, v.file.updateId).w);
        if WriteFailed !in ms {
          DrivenUnderway(id, ms, v.file);
          OnePass(id, ms, start, manifest);
        }
        assert Select(Mark, w.trace) + ms + news == Select(Mark, w.trace) + (ms + news);
        ms := ms + news;
      }
    }
  }

  lemma NothingDriven(id: string)
    ensures Driven(id, [], Marker(true, id))
  {
  }

  lemma DrivenUnderway(id: string, ms: seq<Event>, file: Marker)
    requires Driven(id, ms, file) && file.inProgress
    ensures Underway(id, ms) && file == Marker(true, id)
  {
  }

  // ---- who gets a terminal report -----------------------------------------------------------

  /** The world just after a pass has cleared the marker, if it gets that far. */
  function Clearing(w: World, manifest: Option<Manifest>, id: string): Option<World> {
    var b := Begin(w, id);
    if !b.reply.Good? then None
    else
      var r := if manifest.None? then Outcome(b.w, Err(false)) else Phases(b.w, manifest.value.addons);
      if r.reply.Err? || r.reply == Good(false) then
        var c := Persist(r.w, CLEAR);
        if c.reply.Good? then Some(c.w) else None
      else None
  }

  /** How many terminal reports the update has got. */
  ghost function Reports(id: string, ms: seq<Event>): nat {
    Count((e: Event) => Terminal(e) && e.id == id, ms)
  }

  lemma ReportsAppend(id: string, ms: seq<Event>, more: seq<Event>)
    ensures Reports(id, ms + more) == Reports(id, ms) + Reports(id, more)
  {
    CountAppend((e: Event) => Terminal(e) && e.id == id, ms, more);
  }

  lemma {:induction false} NoReports(id: string, ms: seq<Event>)
    requires forall k :: 0 <= k < |ms| ==> !Terminal(ms[k]) || ms[k].id != id
    ensures Reports(id, ms) == 0
  {
    if ms != [] {
      NoReports(id, ms[..|ms| - 1]);
    }
  }

  lemma OneReport(id: string, report: Event)
    requires Terminal(report) && report.id == id
    ensures Reports(id, [report]) == 1
  {
    var counts := (e: Event) => Terminal(e) && e.id == id;
    assert [report][..|[report]| - 1] == [] && counts(report);
    assert Count(counts, []) == 0;
  }

  /** The pass's marks: whether it set the marker, cleared it, and reported. */
  ghost predicate Ended(w: World, manifest: Option<Manifest>, id: string, news: seq<Event>) {
    var r, c := UpdateAll(w, manifest, id), Clearing(w, manifest, id);
    && Marked(news, w, r.w)
    && (c.Some? ==> Begin(w, id).reply.Good?)
    && (forall k :: 0 <= k < |news| && Terminal(news[k]) ==> news[k].id == id)
    && Reports(id, news) == (if c.Some? && c.value.fates != [] then 1 else 0)
    && (WriteFailed !in news ==>
          r.w.file == (if c.Some? then CLEAR else if Begin(w, id).reply.Good? then Marker(true, id) else w.file))
  }

  lemma PassEnds(w: World, manifest: Option<Manifest>, id: string) returns (news: seq<Event>)
    ensures Ended(w, manifest, id, news)
  {
    hide Select, Begin, Phases, Persist, Publish, Finish, Reports, AllDone, Sincere;
    var b := Begin(w, id);
    news := BeginMarks(w, id);
    NoReports(id, news);
    if b.reply.Good? {
      var p := if manifest.None? then Outcome(b.w, Err(false)) else Phases(b.w, manifest.value.addons);
      if manifest.Some? { PhasesFollow(b.w, manifest.value.addons); }
      if p.reply.Err? || p.reply == Good(false) {
        var status := if p.reply.Err? then Failed else Ok;
        var end := FinishEnds(p.w, status, id);
        ReportsAppend(id, news, end);
        assert Select(Mark, w.trace) + news + end == Select(Mark, w.trace) + (news + end);
        news := news + end;
      }
    }
  }

  lemma FinishEnds(w: World, status: Status, id: string) returns (ms: seq<Event>)
    requires status != Started
    ensures var r, c := Finish(w, status, id), Persist(w, CLEAR);
      && !r.reply.Err? && Marked(ms, w, r.w)
      && (forall k :: 0 <= k < |ms| && Terminal(ms[k]) ==> ms[k].id == id)
      && Reports(id, ms) == (if c.reply.Good? && c.w.fates != [] then 1 else 0)
      && (WriteFailed !in ms ==> r.w.file == if c.reply.Good? then CLEAR else w.file)
  {
    hide Select, Persist, AllDone, Sincere, Reports;
    ms := FinishMarks(w, status, id);
    var head := if ms == [] then [] else ms[..1];
    NoReports(id, head);
    if |ms| == 2 {
      ReportsAppend(id, head, [ms[1]]);
      OneReport(id, ms[1]);
      assert ms == head + [ms[1]];
    } else {
      assert ms == head;
    }
  }

  /** The world just after the turn has cleared the marker, if it gets that far. */
  function Cleared(w: World, manifest: Option<Manifest>, t: Turn): Option<World> {
    var id := IdOf(t.start, w.file);
    if id.None? then None else Clearing(w.(fates := t.fates), manifest, id.value)
  }

  /** The turn gets to set a marker of its own. */
  predicate Marks(w: World, t: Turn) {
    var id := IdOf(t.start, w.file);
    id.Some? && Begin(w.(fates := t.fates), id.value).reply.Good?
  }

  /** The turn drives this update, clears its marker, and has not died by then. */
  predicate Delivers(w: World, manifest: Option<Manifest>, t: Turn, id: string) {
    var c := Cleared(w, manifest, t);
    IdOf(t.start, w.file) == Some(id) && c.Some? && c.value.fates != []
  }

  /** How many of the turns do. */
  function Deliveries(w: World, manifest: Option<Manifest>, turns: seq<Turn>, id: string): nat {
    if turns == [] then 0
    else
      var init, last := turns[..|turns| - 1], turns[|turns| - 1];
      Deliveries(w, manifest, init, id) + if Delivers(Life(w, manifest, init), manifest, last, id) then 1 else 0
  }

  /** One turn, of any kind, on any marker. */
  lemma OneTurn(w: World, manifest: Option<Manifest>, t: Turn, id: string) returns (news: seq<Event>)
    ensures var w', own, c := Taken(w, manifest, t), IdOf(t.start, w.file), Cleared(w, manifest, t);
      && Marked(news, w, w')
      && (c.Some? ==> Marks(w, t))
      && Reports(id, news) == (if Delivers(w, manifest, t, id) then 1 else 0)
      && (WriteFailed !in news ==>
            w'.file == if c.Some? then CLEAR else if Marks(w, t) then Marker(true, own.value) else w.file)
  {
    hide Select, UpdateAll, Clearing, Begin, Reports;
    var own := IdOf(t.start, w.file);
    if own.None? {
      news := [];
      NoReports(id, news);
    } else {
      news := PassEnds(w.(fates := t.fates), manifest, own.value);
      if own.value != id {
        NoReports(id, news);
      }
    }
  }

  /** Over every sequence of commands, repeated ones among them, ticks and boots, cut
      anywhere and with writes that may fail, an update gets one terminal report for
      each turn that drives it, clears the marker and is still alive then, and no
      other. */
  lemma {:induction false} TerminalReports(w: World, manifest: Option<Manifest>, turns: seq<Turn>, id: string)
    returns (ms: seq<Event>)
    ensures Marked(ms, w, Life(w, manifest, turns)) && ms == News(Mark, w, Life(w, manifest, turns))
    ensures Reports(id, ms) == Deliveries(w, manifest, turns, id)
  {
    hide Select, Taken, Reports, Delivers;
    if turns == [] {
      ms := [];
      NoReports(id, ms);
    } else {
      var init, last := turns[..|turns| - 1], turns[|turns| - 1];
      ms := TerminalReports(w, manifest, init, id);
      var news := OneTurn(Life(w, manifest, init), manifest, last, id);
      ReportsAppend(id, ms, news);
      assert Select(Mark, w.trace) + ms + news == Select(Mark, w.trace) + (ms + news);
      ms := ms + news;
    }
  }

  // ---- an update that is not begun anew ---------------------------------------------------------

  /** A command for this update, or a tick if it is the self-check's. */
  predicate Begins(start: Start, id: string) {
    start != Boot && IdOf(start, CLEAR) == Some(id)
  }

  predicate NoneBegins(turns: seq<Turn>, id: string) {
    forall k :: 0 <= k < |turns| ==> !Begins(turns[k].start, id)
  }

  /** The turn leaves the update's marker as it is: a re-driving pass that does not get
      to clear it, or another pass that dies before its own marker is written. */
  predicate Spares(w: World, manifest: Option<Manifest>, t: Turn) {
    if t.start.Boot? then Cleared(w, manifest, t).None? else !Marks(w, t)
  }

  ghost predicate AllSpare(w: World, manifest: Option<Manifest>, turns: seq<Turn>) {
    forall j :: 0 <= j < |turns| ==> Spares(Life(w, manifest, turns[..j]), manifest, turns[j])
  }

  /** Some turn delivers the report, and every turn before it spares the marker. */
  ghost predicate Delivered(w: World, manifest: Option<Manifest>, turns: seq<Turn>, id: string) {
    exists k :: 0 <= k < |turns|
      && AllSpare(w, manifest, turns[..k]) && Delivers(Life(w, manifest, turns[..k]), manifest, turns[k], id)
  }

  /** Where the update stands: as long as its marker is spared there is no report, and
      without its marker there will be none. */
  ghost predicate Stands(id: string, count: nat, file: Marker, spared: bool, delivered: bool) {
    && count == (if delivered then 1 else 0)
    && (if spared then file == Marker(true, id) && !delivered else file != Marker(true, id))
  }

  lemma TurnStands(
      w: World, manifest: Option<Manifest>, t: Turn, id: string, count: nat, spared: bool, delivered: bool)
    returns (news: seq<Event>)
    requires !Begins(t.start, id)
    ensures Marked(news, w, Taken(w, manifest, t))
    ensures WriteFailed !in news && Stands(id, count, w.file, spared, delivered) ==>
              var now := Delivers(w, manifest, t, id);
              Stands(id, if now then count + 1 else count, Taken(w, manifest, t).file,
                     spared && Spares(w, manifest, t), delivered || (spared && now))
  {
    hide Select, Taken, Clearing, Begin, Reports;
    news := OneTurn(w, manifest, t, id);
  }

  lemma OneMoreTurn(w: World, manifest: Option<Manifest>, turns: seq<Turn>, id: string)
    requires turns != []
    ensures var init, last := turns[..|turns| - 1], turns[|turns| - 1];
      var v := Life(w, manifest, init);
      && (AllSpare(w, manifest, turns) <==> AllSpare(w, manifest, init) && Spares(v, manifest, last))
      && (Delivered(w, manifest, turns, id) <==>
            Delivered(w, manifest, init, id) || (AllSpare(w, manifest, init) && Delivers(v, manifest, last, id)))
  {
    hide Life, Spares, Delivers;
    var init := turns[..|turns| - 1];
    assert forall j :: 0 <= j <= |init| ==> turns[..j] == init[..j];
    assert forall j, k :: 0 <= j <= k <= |init| ==> init[..k][..j] == init[..j];
    assert init[..|init|] == init;
  }

  lemma {:induction false} LifeStands(w: World, manifest: Option<Manifest>, turns: seq<Turn>, id: string)
    returns (ms: seq<Event>)
    requires NoneBegins(turns, id)
    ensures Marked(ms, w, Life(w, manifest, turns))
    ensures WriteFailed !in ms ==>
              var own := w.file == Marker(true, id);
              Stands(id, Deliveries(w, manifest, turns, id), Life(w, manifest, turns).file,
                     own && AllSpare(w, manifest, turns), own && Delivered(w, manifest, turns, id))
  {
    hide Select, Taken, Stands, Spares, Delivers, AllSpare, Delivered, Begins;
    var own := w.file == Marker(true, id);
    if turns == [] {
      ms := [];
      StandsFirst(w, manifest, id);
    } else {
      var init, last := turns[..|turns| - 1], turns[|turns| - 1];
      ms := LifeStands(w, manifest, init, id);
      var news := TurnStands(Life(w, manifest, init), manifest, last, id, Deliveries(w, manifest, init, id),
                             own && AllSpare(w, manifest, init), own && Delivered(w, manifest, init, id));
      OneMoreTurn(w, manifest, turns, id);
      assert Select(Mark, w.trace) + ms + news == Select(Mark, w.trace) + (ms + news);
      ms := ms + news;
    }
  }

  lemma StandsFirst(w: World, manifest: Option<Manifest>, id: string)
    ensures var own := w.file == Marker(true, id);
      Stands(id, 0, w.file, own && AllSpare(w, manifest, []), own && Delivered(w, manifest, [], id))
  {
  }

  /** If none of the turns begins the update anew and the disk takes the writes, it gets
      its one terminal report if and only if its marker is set, some boot re-drives it
      to the clearing write and is still alive then, and no turn before that took the
      marker over or cleared it; otherwise it gets none. */
  lemma TerminalReportExactly(w: World, manifest: Option<Manifest>, turns: seq<Turn>, id: string)
    requires NoneBegins(turns, id)
    ensures var ms := News(Mark, w, Life(w, manifest, turns));
      WriteFailed !in ms ==>
        Reports(id, ms) == if w.file == Marker(true, id) && Delivered(w, manifest, turns, id) then 1 else 0
  {
    hide Select, Life, AllSpare, Delivered, Reports, Deliveries;
    var ms := LifeStands(w, manifest, turns, id);
    var all := TerminalReports(w, manifest, turns, id);
    assert ms == all;
  }

  // ---- a commanded update, from its command on ------------------------------------------------

  lemma {:induction false} FirstThenRest(
      w: World, manifest: Option<Manifest>, first: Turn, rest: seq<Turn>, id: string)
    ensures var w1 := Taken(w, manifest, first);
      && Life(w, manifest, [first] + rest) == Life(w1, manifest, rest)
      && Deliveries(w, manifest, [first] + rest, id) ==
           (if Delivers(w, manifest, first, id) then 1 else 0) + Deliveries(w1, manifest, rest, id)
  {
    hide Taken, Delivers;
    if rest == [] {
      assert [first] + rest == [first] && [first][..0] == [];
      assert Life(w, manifest, []) == w && Deliveries(w, manifest, [], id) == 0;
    } else {
      var init := rest[..|rest| - 1];
      assert ([first] + rest)[..|rest|] == [first] + init;
      FirstThenRest(w, manifest, first, init, id);
    }
  }

  /** From its command on, whatever the marker was then, an update that is not commanded
      again gets its one terminal report if and only if the commanding pass itself
      clears the marker and is still alive then; or that pass leaves the update's
      marker set, and a later boot delivers as above. */
  lemma CommandReportExactly(w: World, manifest: Option<Manifest>, first: Turn, rest: seq<Turn>, id: string)
    requires first.start == Command(id) && NoneBegins(rest, id)
    ensures var w1 := Taken(w, manifest, first); var c := Cleared(w, manifest, first);
      var ms := News(Mark, w, Life(w, manifest, [first] + rest));
      WriteFailed !in ms ==>
        && (w1.file == Marker(true, id) <==> c.None? && (Marks(w, first) || w.file == Marker(true, id)))
        && Reports(id, ms) ==
             if c.Some? then if c.value.fates != [] then 1 else 0
             else if w1.file == Marker(true, id) && Delivered(w1, manifest, rest, id) then 1 else 0
  {
    hide Select, Life, Clearing, Begin, UpdateAll, AllSpare, Delivered, Reports, Deliveries;
    var w1 := Taken(w, manifest, first);
    var all := TerminalReports(w, manifest, [first] + rest, id);
    var news := OneTurn(w, manifest, first, id);
    var ms := LifeStands(w1, manifest, rest, id);
    FirstThenRest(w, manifest, first, rest, id);
    assert Select(Mark, w.trace) + news + ms == Select(Mark, w.trace) + (news + ms);
    assert all == news + ms;
  }

  /** A unit on which everything is current. */
  const QUIET := Device(map[], Store([], [], map[]), SELF, VersionInfo("1", "1"), VersionInfo("1", "1"), true)

  const NO_ADDONS := Some(Manifest("", []))

  lemma NothingToDo(w: World)
    requires w.device == QUIET && |w.fates| >= 3 && AllDone(w)
    ensures var r := Phases(w, []);
      r.reply == Good(false) && AllDone(r.w) && r.w.fates == w.fates[3..] && r.w.device == QUIET
  {
    hide Select, UpdateAvailable;
    LatestIsCurrent("1");
    var os := Send(w, GetOS);
    var core := Send(os.w, GetCore);
    var info := Send(core.w, GetInfo(SELF));
    assert UpdateOSLatest(w) == Outcome(os.w, Good(false));
    assert UpdateCoreLatest(os.w) == Outcome(core.w, Good(false));
    assert UpdateSelf(core.w) == Outcome(info.w, Good(false));
  }

  /** A pass on that unit clears its marker with its last effect but one. */
  lemma QuietPass(w: World, id: string)
    requires w.device == QUIET && AllDone(w) && |w.fates| >= if id != "" then 8 else 7
    ensures var c := Clearing(w, NO_ADDONS, id);
      c.Some? && c.value.fates == w.fates[if id != "" then 8 else 7..] && c.value.device == QUIET
  {
    hide Select, Phases;
    var announced := if id != "" then Publish(w, Started, id) else Outcome(w, Good(()));
    var begun := Persist(announced.w, Marker(true, id));
    assert begun.w.fates == announced.w.fates[2..];
    NothingToDo(begun.w);
    var done := Phases(begun.w, []);
    assert Persist(done.w, CLEAR).w.fates == done.w.fates[2..];
  }

  lemma StaysQuiet(w: World, id: string)
    requires w.device == QUIET && AllDone(w) && |w.fates| >= 8
    ensures UpdateAll(w, NO_ADDONS, id).w.device == QUIET
  {
    hide Select, Phases, AllDone;
    QuietPass(w, id);
  }

  function AsPlanned(n: nat): seq<Fate> {
    seq(n, i => Done)
  }

  /** A single turn on that unit with nothing failing. */
  lemma OneQuietTurn(w: World, t: Turn, own: string, id: string)
    requires IdOf(t.start, w.file) == Some(own)
    requires forall i :: 0 <= i < |t.fates| ==> t.fates[i] == Done
    ensures var w', c := Life(w, NO_ADDONS, [t]), Cleared(w, NO_ADDONS, t);
      c.Some? ==>
        w'.file == CLEAR && Reports(id, News(Mark, w, w')) == if own == id && c.value.fates != [] then 1 else 0
  {
    hide Select, UpdateAll, Cleared, Marks, Reports;
    assert [t][..0] == [];
    var start := w.(fates := t.fates);
    MarkerSafety(start, NO_ADDONS, own);
    var news := OneTurn(w, NO_ADDONS, t, id);
    assert News(Mark, start, UpdateAll(start, NO_ADDONS, own).w) == news;
  }

  /** "Every commanded update gets a terminal report" is false: the commanding process
      can die between clearing the marker and reporting, and no boot knows of it. */
  lemma CommandDied(w: World, id: string)
    requires w.device == QUIET && id != ""
    ensures var w' := Life(w, NO_ADDONS, [Turn(Command(id), AsPlanned(8)), Turn(Boot, AsPlanned(9))]);
      w'.file == CLEAR && Reports(id, News(Mark, w, w')) == 0
  {
    hide Select, Clearing, Reports, UpdateAll, Begin;
    var first, boot := Turn(Command(id), AsPlanned(8)), Turn(Boot, AsPlanned(9));
    QuietPass(w.(fates := AsPlanned(8)), id);
    OneQuietTurn(w, first, id, id);
    var w1 := Life(w, NO_ADDONS, [first]);
    assert [first, boot][..1] == [first];
    assert Life(w, NO_ADDONS, [first, boot]) == Taken(w1, NO_ADDONS, boot) == w1;
  }

  /** So can a boot that re-drives it. */
  lemma DiedBeforeReport(w: World, id: string)
    requires w.device == QUIET && w.file == Marker(true, id) && id != ""
    ensures var w' := Life(w, NO_ADDONS, [Turn(Boot, AsPlanned(8))]);
      w'.file == CLEAR && Reports(id, News(Mark, w, w')) == 0
  {
    hide Select, Clearing, Life, Reports, UpdateAll;
    QuietPass(w.(fates := AsPlanned(8)), id);
    OneQuietTurn(w, Turn(Boot, AsPlanned(8)), id, id);
  }

  /** Nor need anyone die or any write fail: a daily self-check that starts before the
      restart takes the marker over, and clears it under no one's name. */
  lemma TakenOver(w: World, id: string)
    requires w.device == QUIET && w.file == Marker(true, id) && id != ""
    ensures var w' := Life(w, NO_ADDONS, [Turn(Tick, AsPlanned(8))]);
      w'.file == CLEAR && Reports(id, News(Mark, w, w')) == 0 && Reports("", News(Mark, w, w')) == 1
  {
    hide Select, Clearing, Life, Reports, UpdateAll;
    QuietPass(w.(fates := AsPlanned(8)), "");
    OneQuietTurn(w, Turn(Tick, AsPlanned(8)), "", id);
    OneQuietTurn(w, Turn(Tick, AsPlanned(8)), "", "");
  }

  /** "Exactly one" fails as well: a command that is delivered twice is carried out and
      reported twice. */
  lemma CommandedTwice(w: World, id: string)
    requires w.device == QUIET && id != ""
    ensures var again := Turn(Command(id), AsPlanned(9));
      Reports(id, News(Mark, w, Life(w, NO_ADDONS, [again, again]))) == 2
  {
    hide Select, Clearing, Life, Reports, UpdateAll, Begin;
    var again := Turn(Command(id), AsPlanned(9));
    QuietPass(w.(fates := again.fates), id);
    var w1 := Taken(w, NO_ADDONS, again);
    StaysQuiet(w.(fates := again.fates), id);
    QuietPass(w1.(fates := again.fates), id);
    var all := TerminalReports(w, NO_ADDONS, [again, again], id);
    FirstThenRest(w, NO_ADDONS, again, [again], id);
    FirstThenRest(w1, NO_ADDONS, again, [], id);
    assert [again] + [] == [again] && [again] + [again] == [again, again];
  }

  // ---- who starts a pass -----------------------------------------------------------------

  /** Commands, connects and the daily tick all start passes through the one guard. */
  class Starter {
    const store: UpdateAgent.UpdateStore
    const auto: Throttle.AutoCheck
    const guard: SingleFlight.Guard

    constructor (store: UpdateAgent.UpdateStore, auto: Throttle.AutoCheck, guard: SingleFlight.Guard)
      ensures this.store == store && this.auto == auto && this.guard == guard
    {
      this.store, this.auto, this.guard := store, auto, guard;
    }

    /** The id of the pass that the trigger started, if it was not dropped. */
    method StartUpdate(id: string) returns (started: Option<string>)
      modifies guard
      ensures guard.updating && started == if old(guard.updating) then None else Some(id)
    {
      var ok := guard.StartUpdate();
      return if ok then Some(id) else None;
    }

    /** A trigger's goroutine: one pass if none is running, after which the flag is
        dropped again; a pass that is cut takes the process with it. */
    method RunIfFree(engine: UpdateAgent.Engine, id: string) returns (r: Option<Reply<PassEnd>>)
      requires engine.Valid() && engine.updateState == store
      modifies guard, engine.sup, store`state
      ensures r.None? <==> old(guard.updating)
      ensures r.None? ==> engine.sup.w == old(engine.sup.w) && store.state == old(store.state) && guard.updating
      ensures r.Some? ==> Outcome(engine.sup.w, r.value) == UpdateAll(old(engine.sup.w), engine.manifest, id)
      ensures r.Some? ==> guard.updating == r.value.Crash?
    {
      hide UpdateAll;
      var started := StartUpdate(id);
      if started.None? {
        return None;
      }
      var reply := engine.UpdateAll(id);
      if !reply.Crash? {
        guard.PassDone();
      }
      return Some(reply);
    }

    /** On each claimed connect: the interrupted update by its own id; otherwise a
        self-check, at most once a day. */
    method ResumeOrCheckUpdates(now: int) returns (started: Option<string>)
      modifies auto, guard
      ensures var marker, last := store.state, old(auto.lastAutoCheck);
        && started == (if old(guard.updating) then None
                       else if marker.inProgress then Some(marker.updateId)
                       else if Throttle.Elapsed(last, now) then Some("") else None)
        && guard.updating == (old(guard.updating) || started.Some?)
        && auto.lastAutoCheck ==
             Throttle.LastAfter(last, if marker.inProgress then Throttle.Stamp(now) else Throttle.Ask(now))
    {
      if store.state.inProgress {
        auto.MarkAutoChecked(now);
        started := StartUpdate(store.state.updateId);
        return;
      }
      started := None;
      var due := auto.AutoCheckDue(now);
      if due {
        started := StartUpdate("");
      }
    }
  }
}

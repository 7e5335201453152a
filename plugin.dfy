/** The Beholder plugin object: the last-known-good frame and section info, the
    live frame rate, the config it writes, and the handlers built on them. */
module Beholder {

  import opened Wrappers
  import opened Coercion
  import opened Framing

  /** The names the plugin shares with the producer. The module that defines
      them is not part of this model, so they are given at construction. */
  datatype SharedNames = SharedNames(
    pluginName: string,
    tagName: string,
    summaryFilename: string,
    sectionInfoFilename: string,
    configFilename: string)

  /** One section record; every value is modelled as a string. */
  type SectionRecord = map<string, string>
  type SectionInfo = seq<SectionRecord>

  /** The placeholder shown until the producer writes its section info. */
  const WaitingInfo: SectionInfo := [map["name" := "Waiting for data..."]]

  /** `'{}/{}'.format(dir, name)`. */
  function JoinPath(dir: string, name: string): (p: string)
    ensures |p| == |dir| + 1 + |name| && p[|dir|] == '/'
    ensures p[..|dir|] == dir && p[|dir| + 1..] == name
  {
    dir + "/" + name
  }

  /** Within one directory, different file names give different paths. */
  lemma JoinPathInjective(dir: string, a: string, b: string)
    requires JoinPath(dir, a) == JoinPath(dir, b)
    ensures a == b
  {
  }

  /** The handlers of the route table. */
  datatype Handler =
    | ChangeConfigHandler
    | BeholderFrameHandler
    | SectionInfoHandler
    | PingHandler
    | TagsHandler
    | IsActiveHandler

  /** A path of one segment directly under the plugin's namespace. */
  predicate IsTopLevelRoute(r: string) {
    |r| > 1 && r[0] == '/' && '/' !in r[1..]
  }

  /** The route table of `get_plugin_apps`. */
  function PluginApps(): (apps: map<string, Handler>)
    ensures forall r :: r in apps ==> IsTopLevelRoute(r)
  {
    assert IsTopLevelRoute("/change-config") && IsTopLevelRoute("/beholder-frame");
    assert IsTopLevelRoute("/section-info") && IsTopLevelRoute("/ping");
    assert IsTopLevelRoute("/tags") && IsTopLevelRoute("/is-active");
    map[
      "/change-config" := ChangeConfigHandler,
      "/beholder-frame" := BeholderFrameHandler,
      "/section-info" := SectionInfoHandler,
      "/ping" := PingHandler,
      "/tags" := TagsHandler,
      "/is-active" := IsActiveHandler]
  }

  /** The route a handler is served under. */
  function RouteOf(h: Handler): string {
    match h
    case ChangeConfigHandler => "/change-config"
    case BeholderFrameHandler => "/beholder-frame"
    case SectionInfoHandler => "/section-info"
    case PingHandler => "/ping"
    case TagsHandler => "/tags"
    case IsActiveHandler => "/is-active"
  }

  /** The route table and `RouteOf` are inverse: every handler is served, under
      exactly one route, and the table's keys are exactly those routes. */
  lemma PluginAppsInverse()
    ensures forall h: Handler :: RouteOf(h) in PluginApps() && PluginApps()[RouteOf(h)] == h
    ensures forall r :: r in PluginApps() ==> RouteOf(PluginApps()[r]) == r
  {
  }

  /** The `{'plugins/<name>': {'tensors': [TAG_NAME]}}` map of the tags handler. */
  type RunsAndTags = map<string, map<string, seq<string>>>

  /** The last successfully read value of a sequence of read attempts, or
      `start` when none of them succeeded. */
  function LatestGood<T>(start: T, attempts: seq<Option<T>>): (r: T)
    ensures r == start || exists k :: 0 <= k < |attempts| && attempts[k] == Some(r)
    decreases |attempts|
  {
    if attempts == [] then start
    else match attempts[|attempts| - 1]
      case Some(v) => v
      case None => LatestGood(start, attempts[..|attempts| - 1])
  }

  /** Before any successful read the fallback is the starting value. */
  lemma {:induction false} LatestGoodNoSuccess<T>(start: T, attempts: seq<Option<T>>)
    requires forall k :: 0 <= k < |attempts| ==> attempts[k].None?
    ensures LatestGood(start, attempts) == start
    decreases |attempts|
  {
    if attempts != [] {
      LatestGoodNoSuccess(start, attempts[..|attempts| - 1]);
    }
  }

  /** After a failed attempt the fallback is the value of the most recent
      successful one. */
  lemma {:induction false} LatestGoodLastSuccess<T>(start: T, attempts: seq<Option<T>>, j: nat)
    requires j < |attempts| && attempts[j].Some?
    requires forall k :: j < k < |attempts| ==> attempts[k].None?
    ensures LatestGood(start, attempts) == attempts[j].value
    decreases |attempts|
  {
    if j < |attempts| - 1 {
      var init := attempts[..|attempts| - 1];
      assert init[j] == attempts[j];
      LatestGoodLastSuccess(start, init, j);
    }
  }

  class BeholderPlugin<Frame> {
    /** `PLUGIN_LOGDIR`, the plugin's directory under the log directory. */
    const pluginDir: string
    const names: SharedNames

    /** `FPS`; a form may set it to any coerced value, not only an integer. */
    var fps: ConfigValue
    var mostRecentFrame: Frame
    var mostRecentInfo: SectionInfo
    /** The configs this object has pickled, by the path written to. */
    var pickled: map<string, Config>

    /** `__init__`: `placeholder` is the bundled no-data image. */
    constructor (pluginDir: string, names: SharedNames, placeholder: Frame)
      ensures this.pluginDir == pluginDir && this.names == names
      ensures fps == Int(10)
      ensures mostRecentFrame == placeholder
      ensures mostRecentInfo == WaitingInfo
      ensures pickled == map[]
    {
      this.pluginDir := pluginDir;
      this.names := names;
      fps := Int(10);
      mostRecentFrame := placeholder;
      mostRecentInfo := WaitingInfo;
      pickled := map[];
    }

    function SummaryPath(): string {
      JoinPath(pluginDir, names.summaryFilename)
    }

    function SectionInfoPath(): string {
      JoinPath(pluginDir, names.sectionInfoFilename)
    }

    function ConfigPath(): string {
      JoinPath(pluginDir, names.configFilename)
    }

    /** `is_active`, over the set of paths that exist. */
    function IsActive(existing: set<string>): (r: bool)
      ensures r <==> {SummaryPath(), SectionInfoPath()} <= existing
    {
      SummaryPath() in existing && SectionInfoPath() in existing
    }

    /** Activity for the four combinations of the two artifacts being present:
        active exactly when both are, and never lost by more files appearing. */
    lemma IsActiveCombinations(others: set<string>)
      requires SummaryPath() !in others && SectionInfoPath() !in others
      requires names.summaryFilename != names.sectionInfoFilename
      ensures !IsActive(others)
      ensures !IsActive(others + {SummaryPath()})
      ensures !IsActive(others + {SectionInfoPath()})
      ensures IsActive(others + {SummaryPath(), SectionInfoPath()})
    {
      if SummaryPath() == SectionInfoPath() {
        JoinPathInjective(pluginDir, names.summaryFilename, names.sectionInfoFilename);
      }
    }

    lemma IsActiveMonotone(existing: set<string>, more: set<string>)
      requires existing <= more
      ensures IsActive(existing) ==> IsActive(more)
    {
    }

    /** The registration map the tags handler answers when it takes its "active" branch. */
    function Registration(): (r: RunsAndTags)
      ensures r.Keys == {"plugins/" + names.pluginName}
      ensures r["plugins/" + names.pluginName] == map["tensors" := [names.tagName]]
    {
      map["plugins/" + names.pluginName := map["tensors" := [names.tagName]]]
    }

    /** `_serve_tags`: its test is the bound method `self.is_active`, which is
        always truthy, so the activity of `existing` is never consulted. */
    function ServeTags(existing: set<string>): (r: RunsAndTags)
      ensures r == Registration() && r != map[]
    {
      var boundMethodIsTruthy := true;
      if boundMethodIsTruthy then Registration() else map[]
    }

    /** The tags answer is the registration map whatever the files, even when
        the plugin is inactive. */
    lemma TagsIgnoreActivity(existing: set<string>)
      ensures ServeTags(existing) == Registration()
      ensures !IsActive(existing) ==> ServeTags(existing) != map[]
    {
    }

    /** `_fetch_current_frame`: `read` is the decoded summary, or None when the
        read raised DecodeError, IOError or NotFoundError. */
    method FetchCurrentFrame(read: Option<Frame>) returns (frame: Frame)
      modifies this`mostRecentFrame
      ensures frame == LatestGood(old(mostRecentFrame), [read])
      ensures read.Some? ==> frame == read.value
      ensures read.None? ==> frame == old(mostRecentFrame)
      ensures mostRecentFrame == frame
    {
      match read
      case Some(f) =>
        mostRecentFrame := f;
        frame := f;
      case None =>
        frame := mostRecentFrame;
    }

    /** `_serve_section_info`: `read` is the unpickled info file, or None when
        `read_pickle` falls back to its default, the stored info. */
    method ServeSectionInfo(read: Option<SectionInfo>) returns (info: SectionInfo)
      modifies this`mostRecentInfo
      ensures info == read.GetOr(old(mostRecentInfo))
      ensures mostRecentInfo == info
    {
      info := read.GetOr(mostRecentInfo);
      mostRecentInfo := info;
    }

    /** `_serve_change_config`: coerce the form, take `FPS` from it and persist the
        config; without an `FPS` entry the KeyError escapes before anything is written. */
    method ChangeConfig(items: FormItems) returns (r: Result<Config, string>)
      modifies this`fps, this`pickled
      ensures r.Success? <==> HasKey(items, "FPS")
      ensures r.Success? ==> r.value == CoerceForm(items) && "FPS" in r.value && fps == r.value["FPS"]
      ensures r.Success? ==> pickled == old(pickled)[ConfigPath() := r.value]
      ensures r.Failure? ==> r.error == "FPS" && fps == old(fps) && pickled == old(pickled)
    {
      var config := BuildConfig(items);
      CoerceFormKeys(items);
      if "FPS" !in config {
        return Failure("FPS");
      }
      fps := config["FPS"];
      pickled := pickled[ConfigPath() := config];
      r := Success(config);
    }

    /** One iteration of `_frame_generator`; `read` is what fetching a frame in
        this iteration would read and `encodePng` is the image encoder. */
    method GeneratorStep(read: Option<Frame>, encodePng: Frame -> seq<byte>) returns (out: StepOutcome)
      modifies this`mostRecentFrame
      ensures IsPaused(fps) ==> out == Paused && mostRecentFrame == old(mostRecentFrame)
      ensures !IsNumeric(fps) ==> out == Raised && mostRecentFrame == old(mostRecentFrame)
      ensures IsNumeric(fps) && !IsPaused(fps) ==>
                mostRecentFrame == LatestGood(old(mostRecentFrame), [read]) &&
                out == Emitted(SleepSeconds(fps, 0.0), Chunk(encodePng(mostRecentFrame)))
    {
      var lastDuration := 0.0;
      if IsPaused(fps) {
        return Paused;
      }
      if !IsNumeric(fps) {
        return Raised;
      }
      var sleep := SleepSeconds(fps, lastDuration);
      var frame := FetchCurrentFrame(read);
      var imageBytes := encodePng(frame);
      out := Emitted(sleep, FrameText + ContentType + imageBytes + Trailer);
    }

    /** The generator run for `|attempts|` iterations (fewer if it raises), with
        `attempts[i]` what iteration `i` would read. */
    method Generate(attempts: seq<Option<Frame>>, encodePng: Frame -> seq<byte>) returns (outs: seq<StepOutcome>)
      modifies this`mostRecentFrame
      ensures IsPaused(fps) ==>
                outs == seq(|attempts|, _ => Paused) && mostRecentFrame == old(mostRecentFrame)
      ensures !IsNumeric(fps) ==>
                outs == (if attempts == [] then [] else [Raised]) && mostRecentFrame == old(mostRecentFrame)
      ensures IsNumeric(fps) && !IsPaused(fps) ==>
                && |outs| == |attempts|
                && (forall i :: 0 <= i < |attempts| ==>
                      outs[i] == Emitted(SleepSeconds(fps, 0.0),
                                         Chunk(encodePng(LatestGood(old(mostRecentFrame), attempts[..i + 1])))))
                && mostRecentFrame == LatestGood(old(mostRecentFrame), attempts)
    {
      ghost var start := mostRecentFrame;
      outs := [];
      var i := 0;
      while i < |attempts|
        invariant 0 <= i <= |attempts|
        invariant IsPaused(fps) ==> outs == seq(i, _ => Paused) && mostRecentFrame == start
        invariant !IsNumeric(fps) ==> i == 0 && outs == [] && mostRecentFrame == start
        invariant IsNumeric(fps) && !IsPaused(fps) ==>
                    && |outs| == i
                    && (forall k :: 0 <= k < i ==>
                          outs[k] == Emitted(SleepSeconds(fps, 0.0),
                                             Chunk(encodePng(LatestGood(start, attempts[..k + 1])))))
                    && mostRecentFrame == LatestGood(start, attempts[..i])
      {
        var out := GeneratorStep(attempts[i], encodePng);
        assert attempts[..i + 1][..i] == attempts[..i];
        outs := outs + [out];
        if out == Raised {
          break;
        }
        i := i + 1;
      }
      assert attempts[..|attempts|] == attempts;
    }
  }
}

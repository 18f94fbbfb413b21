/** A tree of models run over a frame, whatever they find (src/vision/StageRunner.cpp). */
module StageRunner {
  const MAX_STAGES := 8
  const MAX_STAGE_DEPTH := 6

  datatype Result<+T> = Ok(value: T) | Error

  datatype AiStage = AiStage(
    modelType: string, modelPath: string, inputClasses: seq<int>, classFilter: seq<int>, parent: int, transform: string)

  /** A loaded stage: `children` are the stages whose parent it is. */
  datatype Stage = Stage(config: AiStage, children: seq<nat>)

  datatype Box = Box(x1: real, y1: real, x2: real, y2: real)

  datatype Option<+T> = None | Some(value: T)

  /** `box` is where it lies in the image its stage saw, `frameBox` where in the frame. */
  datatype Detection = Detection(
    box: Box, classId: int, embedding: seq<real>, frameBox: Option<Box>, stage: int, children: seq<Detection>)

  /** What a model reports, before the runner places it. */
  datatype Report = Report(box: Box, classId: int)

  /** What comes of a stage on one detection: its transform does not apply, something fails, or the
      model looked at the part of the frame whose corner is (x, y). `embedding` is what a model that
      describes the detection itself leaves on it. */
  datatype Outcome = Skipped | Failed | Looked(x: int, y: int, embedding: Option<seq<real>>, reports: seq<Report>)

  /** Every outcome of a frame: by the stage and where its detection stands in the forest. */
  type Models = (nat, seq<nat>) -> Outcome

  predicate PassesFilter(filter: seq<int>, classId: int) { filter == [] || classId in filter }

  // ---------------------------------------------------------------- the stage list

  predicate Backward(stages: seq<AiStage>) {
    forall i :: 0 < i < |stages| ==> 0 <= stages[i].parent < i
  }

  function Depth(stages: seq<AiStage>, i: nat): nat
    requires i < |stages| && Backward(stages)
  {
    if i == 0 then 0 else Depth(stages, stages[i].parent) + 1
  }

  predicate Known(stage: AiStage, models: set<string>, transforms: set<string>) {
    && stage.modelType != "" && stage.modelPath != "" && stage.modelType in models
    && (stage.transform != "" ==> stage.transform in transforms)
  }

  ghost predicate ValidStages(stages: seq<AiStage>, models: set<string>, transforms: set<string>) {
    && 1 <= |stages| <= MAX_STAGES
    && (forall i :: 0 <= i < |stages| ==> Known(stages[i], models, transforms))
    && stages[0].parent == -1 && Backward(stages)
    && (forall i :: 0 <= i < |stages| ==> Depth(stages, i) < MAX_STAGE_DEPTH)
  }

  lemma {:induction false} DepthOfPrefix(stages: seq<AiStage>, n: nat, i: nat)
    requires i < n <= |stages| && Backward(stages)
    ensures Backward(stages[..n]) && Depth(stages[..n], i) == Depth(stages, i)
    decreases i
  {
    assert forall k :: 0 < k < n ==> stages[..n][k].parent == stages[k].parent;
    if i > 0 { DepthOfPrefix(stages, n, stages[i].parent); }
  }

  /** Accepts exactly the trees: one root, every other stage below an earlier one, not too deep. */
  method ValidateStages(stages: seq<AiStage>, models: set<string>, transforms: set<string>) returns (ok: bool)
    ensures ok == ValidStages(stages, models, transforms)
  {
    hide Known;
    if stages == [] { return false; }
    if |stages| > MAX_STAGES { return false; }
    var depth := new nat[|stages|](_ => 0);
    for i := 0 to |stages|
      invariant forall k :: 0 <= k < i ==> Known(stages[k], models, transforms)
      invariant Backward(stages[..i]) && DepthsAre(stages[..i], depth[..i])
      invariant depth[i..] == seq(|stages| - i, _ => 0)
      invariant i > 0 ==> stages[0].parent == -1
    {
      var stage := stages[i];
      KnownWhen(stage, models, transforms);
      hide Depth;
      hide DepthsAre;
      if stage.modelType == "" || stage.modelPath == "" || stage.modelType !in models { return false; }
      if stage.transform != "" && stage.transform !in transforms { return false; }
      if i == 0 {
        if stage.parent != -1 { return false; }
        FirstDepth(stages);
        assert depth[..1] == [0];
      } else {
        if stage.parent < 0 || stage.parent >= i {
          assert !Backward(stages);
          return false;
        }
        NextDepth(stages, i, depth[..i]);
        depth[i] := depth[stage.parent] + 1;
        if depth[i] >= MAX_STAGE_DEPTH {
          TooDeep(stages, i);
          return false;
        }
        assert depth[..i + 1] == depth[..i] + [depth[i]];
      }
    }
    assert stages[..|stages|] == stages;
    return true;
  }

  /** The depths of all these stages, and none is too much. */
  ghost predicate DepthsAre(stages: seq<AiStage>, depths: seq<nat>)
    requires Backward(stages)
  {
    |depths| == |stages| && forall k :: 0 <= k < |stages| ==> depths[k] == Depth(stages, k) < MAX_STAGE_DEPTH
  }

  lemma FirstDepth(stages: seq<AiStage>)
    requires stages != []
    ensures Backward(stages[..1]) && DepthsAre(stages[..1], [0])
  {
  }

  lemma NextDepth(stages: seq<AiStage>, i: nat, depths: seq<nat>)
    requires 0 < i < |stages| && Backward(stages[..i]) && DepthsAre(stages[..i], depths) && 0 <= stages[i].parent < i
    ensures |depths| == i && Backward(stages[..i + 1])
    ensures Depth(stages[..i + 1], i) == depths[stages[i].parent] + 1
    ensures depths[stages[i].parent] + 1 < MAX_STAGE_DEPTH ==>
              DepthsAre(stages[..i + 1], depths + [depths[stages[i].parent] + 1])
  {
    var upTo := stages[..i + 1];
    assert upTo[..i] == stages[..i];
    forall k | 0 < k < i + 1 ensures 0 <= upTo[k].parent < k { if k < i { assert upTo[..i][k] == upTo[k]; } }
    forall k | 0 <= k < i ensures Depth(upTo, k) == Depth(stages[..i], k) { DepthOfPrefix(upTo, i, k); }
  }

  lemma KnownWhen(stage: AiStage, models: set<string>, transforms: set<string>)
    ensures Known(stage, models, transforms) <==>
            !(stage.modelType == "" || stage.modelPath == "" || stage.modelType !in models)
            && !(stage.transform != "" && stage.transform !in transforms)
  {
  }

  lemma TooDeep(stages: seq<AiStage>, i: nat)
    requires 0 < i < |stages| && Backward(stages[..i + 1]) && Depth(stages[..i + 1], i) >= MAX_STAGE_DEPTH
    ensures !(Backward(stages) && forall k :: 0 <= k < |stages| ==> Depth(stages, k) < MAX_STAGE_DEPTH)
  {
    if Backward(stages) { DepthOfPrefix(stages, i + 1, i); }
  }

  // ---------------------------------------------------------------- the tree

  function Configs(tree: seq<Stage>): (configs: seq<AiStage>)
    ensures |configs| == |tree|
    ensures forall i :: 0 <= i < |tree| ==> configs[i] == tree[i].config
  {
    seq(|tree|, i requires 0 <= i < |tree| => tree[i].config)
  }

  /** The stages among the first `n` whose parent is `s`, in order. */
  function ChildrenOf(stages: seq<AiStage>, s: nat, n: nat): (children: seq<nat>)
    requires n <= |stages|
    ensures forall k :: 0 <= k < |children| ==> 0 < children[k] < n && stages[children[k]].parent == s
    ensures forall c :: 0 < c < n && stages[c].parent == s ==> c in children
    ensures forall j, k :: 0 <= j < k < |children| ==> children[j] < children[k]
    decreases n
  {
    if n <= 1 then []
    else
      var before := ChildrenOf(stages, s, n - 1);
      if stages[n - 1].parent != s then before
      else
        assert forall c <- before :: c in before + [n - 1];
        before + [n - 1]
  }

  /** What loading leaves: every stage with its children in order. */
  function Loaded(stages: seq<AiStage>): seq<Stage> {
    seq(|stages|, i requires 0 <= i < |stages| => Stage(stages[i], ChildrenOf(stages, i, |stages|)))
  }

  ghost predicate Tree(tree: seq<Stage>) {
    && tree != [] && tree[0].config.parent == -1 && Backward(Configs(tree))
    && (forall c :: 0 < c < |tree| ==> c in tree[tree[c].config.parent].children)
    && (forall s, j, k :: 0 <= s < |tree| && 0 <= j < k < |tree[s].children| ==> tree[s].children[j] < tree[s].children[k])
    && forall s, k :: 0 <= s < |tree| && 0 <= k < |tree[s].children| ==>
                        s < tree[s].children[k] < |tree| && tree[tree[s].children[k]].config.parent == s
  }

  /** The stages below a stage come after it: all that a run needs. */
  ghost predicate Forward(tree: seq<Stage>) {
    forall s, k :: 0 <= s < |tree| && 0 <= k < |tree[s].children| ==> s < tree[s].children[k] < |tree|
  }

  function Level(tree: seq<Stage>, s: int): nat
    requires 0 <= s < |tree| && Backward(Configs(tree))
  {
    Depth(Configs(tree), s)
  }

  lemma LoadedIsTree(stages: seq<AiStage>)
    requires stages != [] && stages[0].parent == -1 && Backward(stages)
    ensures Tree(Loaded(stages)) && Configs(Loaded(stages)) == stages
  {
    hide ChildrenOf;
    var tree := Loaded(stages);
    assert Configs(tree) == stages;
    forall c | 0 < c < |tree| ensures c in tree[tree[c].config.parent].children {}
    forall s, k | 0 <= s < |tree| && 0 <= k < |tree[s].children|
      ensures s < tree[s].children[k] < |tree| && tree[tree[s].children[k]].config.parent == s
    {
      assert stages[tree[s].children[k]].parent == s;
    }
  }

  // ---------------------------------------------------------------- one frame

  /** A child's box, moved to where its crop lies in the frame. */
  function Moved(box: Box, x: int, y: int): Box {
    Box(x as real + box.x1, y as real + box.y1, x as real + box.x2, y as real + box.y2)
  }

  /** The reports a stage keeps, placed in the frame. */
  function Kept(stage: Stage, s: nat, x: int, y: int, reports: seq<Report>): seq<Detection> {
    if reports == [] then []
    else
      var last := reports[|reports| - 1];
      Kept(stage, s, x, y, reports[..|reports| - 1])
      + if PassesFilter(stage.config.classFilter, last.classId)
        then [Placed(Fresh(last), s, x, y)] else []
  }

  /** A report as the model leaves it on the list, and as the runner places it. */
  function Fresh(report: Report): Detection { Detection(report.box, report.classId, [], None, 0, []) }

  function Enrich(reports: seq<Report>): seq<Detection> {
    seq(|reports|, i requires 0 <= i < |reports| => Fresh(reports[i]))
  }

  function Placed(d: Detection, s: nat, x: int, y: int): Detection {
    d.(frameBox := Some(Moved(d.box, x, y)), stage := s)
  }

  function Enriched(parent: Detection, embedding: Option<seq<real>>, children: seq<Detection>): Detection {
    parent.(embedding := if embedding.Some? then embedding.value else parent.embedding, children := parent.children + children)
  }

  /** A stage over a list of detections that stands at `path`. */
  ghost function RunOver(tree: seq<Stage>, models: Models, s: nat, path: seq<nat>, parents: seq<Detection>): Result<seq<Detection>>
    requires Forward(tree) && s < |tree|
    decreases |tree| - s, 2, |parents|
  {
    if parents == [] then Ok([])
    else
      var n := |parents| - 1;
      var before := RunOver(tree, models, s, path, parents[..n]);
      if before.Error? then Error
      else
        var last := RunOn(tree, models, s, path + [n], parents[n]);
        if last.Error? then Error else Ok(before.value + [last.value])
  }

  /** A stage on one detection, and then the stages below it on everything the detection has by then. */
  ghost function RunOn(tree: seq<Stage>, models: Models, s: nat, path: seq<nat>, parent: Detection): Result<Detection>
    requires Forward(tree) && s < |tree|
    decreases |tree| - s, 1, 0
  {
    if !PassesFilter(tree[s].config.inputClasses, parent.classId) then Ok(parent)
    else
      match models(s, path)
      case Skipped => Ok(parent)
      case Failed => Error
      case Looked(x, y, embedding, reports) =>
        RunBelow(tree, models, s, |tree[s].children|, path, Enriched(parent, embedding, Kept(tree[s], s, x, y, reports)))
  }

  /** The first `n` stages below `s`, each over all of the detection's children. */
  ghost function RunBelow(tree: seq<Stage>, models: Models, s: nat, n: nat, path: seq<nat>, parent: Detection): Result<Detection>
    requires Forward(tree) && s < |tree| && n <= |tree[s].children|
    decreases |tree| - s, 0, n
  {
    if n == 0 then Ok(parent)
    else
      var before := RunBelow(tree, models, s, n - 1, path, parent);
      if before.Error? then Error
      else
        var children := RunOver(tree, models, tree[s].children[n - 1], path, before.value.children);
        if children.Error? then Error else Ok(before.value.(children := children.value))
  }

  /** Stands for the frame, so that what stage 0 finds is its children. */
  function Frame(found: seq<Detection>): Detection {
    Detection(Box(0.0, 0.0, 0.0, 0.0), 0, [], None, -1, found)
  }

  /** The whole tree over a frame in which stage 0 finds these. */
  ghost function RunTree(tree: seq<Stage>, models: Models, reports: seq<Report>): Result<seq<Detection>>
    requires Forward(tree) && tree != []
  {
    var run := RunBelow(tree, models, 0, |tree[0].children|, [], Frame(Kept(tree[0], 0, 0, 0, reports)));
    if run.Error? then Error else Ok(run.value.children)
  }

  // ---------------------------------------------------------------- what survives

  predicate SameSize(a: Box, b: Box) { a.x2 - a.x1 == b.x2 - b.x1 && a.y2 - a.y1 == b.y2 - b.y1 }

  /** A detection of a stage, placed in the frame, passing that stage's filter, nested as deep as the
      stage is, and everything under it likewise. */
  ghost predicate Sound(tree: seq<Stage>, d: Detection, level: nat)
    requires Tree(tree)
    decreases d
  {
    && 0 <= d.stage < |tree| && Level(tree, d.stage) == level
    && d.frameBox.Some? && SameSize(d.frameBox.value, d.box)
    && PassesFilter(tree[d.stage].config.classFilter, d.classId)
    && forall i :: 0 <= i < |d.children| ==> Sound(tree, d.children[i], level + 1)
  }

  ghost predicate AllSound(tree: seq<Stage>, list: seq<Detection>, level: nat)
    requires Tree(tree)
  {
    forall i :: 0 <= i < |list| ==> Sound(tree, list[i], level)
  }

  /** A run changes nothing of a detection but what is added under it. */
  predicate SameHead(a: Detection, b: Detection) {
    a.box == b.box && a.classId == b.classId && a.frameBox == b.frameBox && a.stage == b.stage
  }

  lemma {:induction false} KeptSound(tree: seq<Stage>, s: nat, x: int, y: int, reports: seq<Report>)
    requires Tree(tree) && s < |tree|
    ensures AllSound(tree, Kept(tree[s], s, x, y, reports), Level(tree, s))
    ensures forall d <- Kept(tree[s], s, x, y, reports) :: d.stage == s && d.children == []
  {
    hide Tree;
    hide Level;
    if reports != [] { KeptSound(tree, s, x, y, reports[..|reports| - 1]); }
  }

  lemma {:induction false} OverSound(tree: seq<Stage>, models: Models, s: nat, path: seq<nat>, parents: seq<Detection>, level: nat)
    requires Tree(tree) && s < |tree| && Level(tree, s) == level + 1 && AllSound(tree, parents, level)
    ensures var r := RunOver(tree, models, s, path, parents); r.Ok? ==> AllSound(tree, r.value, level)
    decreases |tree| - s, 2, |parents|
  {
    hide Level;
    assert Forward(tree);
    hide Tree;
    if parents != [] {
      var n := |parents| - 1;
      OverSound(tree, models, s, path, parents[..n], level);
      OnSound(tree, models, s, path + [n], parents[n], level);
    }
  }

  lemma {:induction false} OnSound(tree: seq<Stage>, models: Models, s: nat, path: seq<nat>, parent: Detection, level: nat)
    requires Tree(tree) && s < |tree| && Level(tree, s) == level + 1 && Sound(tree, parent, level)
    ensures var r := RunOn(tree, models, s, path, parent); r.Ok? ==> Sound(tree, r.value, level) && SameHead(r.value, parent)
    decreases |tree| - s, 1, 0
  {
    hide Level;
    assert Forward(tree);
    hide Tree;
    if PassesFilter(tree[s].config.inputClasses, parent.classId) {
      match models(s, path)
      case Skipped =>
      case Failed =>
      case Looked(x, y, embedding, reports) =>
        KeptSound(tree, s, x, y, reports);
        var enriched := Enriched(parent, embedding, Kept(tree[s], s, x, y, reports));
        BelowSound(tree, models, s, |tree[s].children|, path, enriched);
        hide RunBelow;
    }
  }

  lemma {:induction false} BelowSound(tree: seq<Stage>, models: Models, s: nat, n: nat, path: seq<nat>, parent: Detection)
    requires Tree(tree) && s < |tree| && n <= |tree[s].children| && AllSound(tree, parent.children, Level(tree, s))
    ensures var r := RunBelow(tree, models, s, n, path, parent);
            r.Ok? ==> AllSound(tree, r.value.children, Level(tree, s)) && SameHead(r.value, parent)
    decreases |tree| - s, 0, n
  {
    if n > 0 {
      BelowSound(tree, models, s, n - 1, path, parent);
      hide Level;
      var before := RunBelow(tree, models, s, n - 1, path, parent);
      if before.Ok? { OverSound(tree, models, tree[s].children[n - 1], path, before.value.children, Level(tree, s)); }
    }
  }

  /** For every accepted stage list and whatever the models find: what a run returns is detections
      of stage 0, and every detection at every depth has a frame box the size of its own, passes its
      own stage's filter, and is nested exactly as deep as its stage, so less than the limit. */
  lemma EverySurvivorIsSound(stages: seq<AiStage>, names: set<string>, transforms: set<string>, models: Models, reports: seq<Report>)
    requires ValidStages(stages, names, transforms)
    ensures Tree(Loaded(stages))
    ensures var r := RunTree(Loaded(stages), models, reports); r.Ok? ==> AllSound(Loaded(stages), r.value, 0)
    ensures forall s :: 0 <= s < |stages| ==> Level(Loaded(stages), s) < MAX_STAGE_DEPTH
  {
    LoadedIsTree(stages);
    var tree := Loaded(stages);
    KeptSound(tree, 0, 0, 0, reports);
    BelowSound(tree, models, 0, |tree[0].children|, [], Frame(Kept(tree[0], 0, 0, 0, reports)));
  }

  // ---------------------------------------------------------------- what is found, and where

  /** The reports of the classes a filter names, in order; all of them when it names none. */
  function Passing(filter: seq<int>, reports: seq<Report>): seq<Report> {
    if reports == [] then []
    else
      var last := reports[|reports| - 1];
      Passing(filter, reports[..|reports| - 1]) + if filter == [] || last.classId in filter then [last] else []
  }

  /** This detection is that report, made of an image whose corner is at (x, y) of the frame. */
  ghost predicate IsReport(d: Detection, report: Report, x: int, y: int) {
    && d.box == report.box && d.classId == report.classId && d.frameBox.Some?
    && var place := d.frameBox.value;
    && place.x1 == x as real + report.box.x1 && place.y1 == y as real + report.box.y1
    && place.x2 == x as real + report.box.x2 && place.y2 == y as real + report.box.y2
  }

  ghost predicate AreReports(list: seq<Detection>, reports: seq<Report>, x: int, y: int) {
    |list| == |reports| && forall k :: 0 <= k < |list| ==> IsReport(list[k], reports[k], x, y)
  }

  /** The detections of one stage in a list, in order. */
  function OfStage(list: seq<Detection>, s: int): seq<Detection> {
    if list == [] then []
    else
      var last := list[|list| - 1];
      OfStage(list[..|list| - 1], s) + if last.stage == s then [last] else []
  }

  /** `found` is all that stage `s` has to show for the detection of this class at `path`. */
  ghost predicate Finds(tree: seq<Stage>, models: Models, s: nat, path: seq<nat>, classId: int, found: seq<Detection>)
    requires s < |tree|
  {
    var config, look := tree[s].config, models(s, path);
    if (config.inputClasses == [] || classId in config.inputClasses) && look.Looked?
    then AreReports(found, Passing(config.classFilter, look.reports), look.x, look.y)
    else found == []
  }

  ghost predicate Shows(tree: seq<Stage>, models: Models, d: Detection, path: seq<nat>, must: set<int>, s: nat)
    requires s < |tree|
  {
    var found := OfStage(d.children, s);
    && (Finds(tree, models, s, path, d.classId, found) || (found == [] && s !in must))
    && (s in must && Takes(tree, s, d.classId) ==> !models(s, path).Failed?)
  }

  /** Stage `s` looked at this detection and described it as it is described now. */
  ghost predicate Gave(tree: seq<Stage>, models: Models, d: Detection, path: seq<nat>, s: nat) {
    && 0 < s < |tree| && Takes(tree, s, d.classId)
    && models(s, path).Looked? && models(s, path).embedding == Some(d.embedding)
  }

  /** A detection is described by a stage that looked at it, or by none when none of those in `must`
      had a description to give. */
  ghost predicate Described(tree: seq<Stage>, models: Models, d: Detection, path: seq<nat>, must: set<int>) {
    (exists s: nat :: Gave(tree, models, d, path, s)) ||
    (d.embedding == [] &&
     forall s: nat :: 0 < s < |tree| && s in must && Takes(tree, s, d.classId) && models(s, path).Looked? ==>
                        models(s, path).embedding == None)
  }

  function Below(tree: seq<Stage>, s: int): set<int> {
    set t | 0 < t < |tree| && tree[t].config.parent == s
  }

  /** What hangs under the detection at `path` is, stage by stage, all or nothing of what the stage
      found on it, all of it for the stages in `must`; and everything below likewise, where each
      detection has been looked at by every stage configured under its own. */
  ghost predicate Complete(tree: seq<Stage>, models: Models, d: Detection, path: seq<nat>, must: set<int>)
    decreases d
  {
    && (forall s: nat :: 0 < s < |tree| ==> Shows(tree, models, d, path, must, s))
    && Described(tree, models, d, path, must)
    && forall i :: 0 <= i < |d.children| ==>
         && 0 < d.children[i].stage < |tree|
         && Complete(tree, models, d.children[i], path + [i], Below(tree, d.children[i].stage))
  }

  /** Nothing under a detection comes, at its depth, from the stages in `from` or below them. */
  ghost predicate Off(tree: seq<Stage>, d: Detection, from: set<int>)
    decreases d
  {
    forall i :: 0 <= i < |d.children| ==> d.children[i].stage !in from && Off(tree, d.children[i], Kids(tree, from))
  }

  function Kids(tree: seq<Stage>, from: set<int>): set<int> {
    set t | 0 < t < |tree| && tree[t].config.parent in from
  }

  lemma {:induction false} OffLess(tree: seq<Stage>, d: Detection, more: set<int>, less: set<int>)
    requires Off(tree, d, more) && less <= more
    ensures Off(tree, d, less)
    decreases d
  {
    forall i | 0 <= i < |d.children| ensures Off(tree, d.children[i], Kids(tree, less)) {
      OffLess(tree, d.children[i], Kids(tree, more), Kids(tree, less));
    }
  }

  ghost predicate AllOff(tree: seq<Stage>, list: seq<Detection>, from: set<int>) {
    forall i :: 0 <= i < |list| ==> Off(tree, list[i], from)
  }

  ghost predicate SameHeads(a: seq<Detection>, b: seq<Detection>) {
    |a| == |b| && forall i :: 0 <= i < |a| ==> SameHead(a[i], b[i])
  }

  lemma OffUnder(tree: seq<Stage>, d: Detection, from: set<int>)
    ensures Off(tree, d, from) <==>
              (forall i :: 0 <= i < |d.children| ==> d.children[i].stage !in from) && AllOff(tree, d.children, Kids(tree, from))
  {
  }

  /** A stage adds nothing under a detection that is not its own or from below it. */
  lemma {:induction false} OverOff(tree: seq<Stage>, models: Models, s: nat, path: seq<nat>, parents: seq<Detection>, from: set<int>)
    requires Tree(tree) && s < |tree| && s !in from && AllOff(tree, parents, from)
    ensures var r := RunOver(tree, models, s, path, parents); r.Ok? ==> AllOff(tree, r.value, from) && SameHeads(r.value, parents)
    decreases |tree| - s, 2, |parents|
  {
    assert Forward(tree);
    hide Tree;
    hide Off;
    if parents != [] {
      var n := |parents| - 1;
      OverOff(tree, models, s, path, parents[..n], from);
      OnOff(tree, models, s, path + [n], parents[n], from);
      hide RunOn;
    }
  }

  lemma {:induction false} OnOff(tree: seq<Stage>, models: Models, s: nat, path: seq<nat>, d: Detection, from: set<int>)
    requires Tree(tree) && s < |tree| && s !in from && Off(tree, d, from)
    ensures var r := RunOn(tree, models, s, path, d); r.Ok? ==> Off(tree, r.value, from) && SameHead(r.value, d)
    decreases |tree| - s, 1, 0
  {
    assert Forward(tree);
    if PassesFilter(tree[s].config.inputClasses, d.classId) && models(s, path).Looked? {
      var look := models(s, path);
      KeptSound(tree, s, look.x, look.y, look.reports);
      var enriched := Enriched(d, look.embedding, Kept(tree[s], s, look.x, look.y, look.reports));
      hide Tree;
      hide Kept;
      BelowOff(tree, models, s, |tree[s].children|, path, enriched, from);
      hide RunBelow;
    }
  }

  lemma {:induction false} BelowOff(tree: seq<Stage>, models: Models, s: nat, n: nat, path: seq<nat>, parent: Detection, from: set<int>)
    requires Tree(tree) && s < |tree| && s !in from && n <= |tree[s].children| && Off(tree, parent, from)
    ensures var r := RunBelow(tree, models, s, n, path, parent); r.Ok? ==> Off(tree, r.value, from) && SameHead(r.value, parent)
    decreases |tree| - s, 0, n
  {
    hide Off;
    hide AllOff;
    if n > 0 {
      BelowOff(tree, models, s, n - 1, path, parent, from);
      var before, t := RunBelow(tree, models, s, n - 1, path, parent), tree[s].children[n - 1];
      if before.Ok? {
        OffUnder(tree, before.value, from);
        OverOff(tree, models, t, path, before.value.children, Kids(tree, from));
        var after := RunOver(tree, models, t, path, before.value.children);
        hide RunOver;
        if after.Ok? { OffUnder(tree, before.value.(children := after.value), from); }
      }
    }
  }

  /** The first `n` stages below `s`, and the others. */
  function FirstOf(tree: seq<Stage>, s: nat, n: nat): set<int>
    requires s < |tree| && n <= |tree[s].children|
  {
    set k | 0 <= k < n :: tree[s].children[k]
  }

  function RestOf(tree: seq<Stage>, s: nat, n: nat): set<int>
    requires s < |tree| && n <= |tree[s].children|
  {
    set k | n <= k < |tree[s].children| :: tree[s].children[k]
  }

  /** The stages that have looked at a detection of stage `of` when `n` of those below `s` have run. */
  function MustOf(tree: seq<Stage>, of: int, s: nat, n: nat): set<int>
    requires s < |tree| && n <= |tree[s].children|
  {
    if of == s then FirstOf(tree, s, n) else Below(tree, of)
  }

  ghost predicate Partial(tree: seq<Stage>, models: Models, list: seq<Detection>, path: seq<nat>, s: nat, n: nat)
    requires s < |tree| && n <= |tree[s].children|
  {
    forall i :: 0 <= i < |list| ==>
      && (0 < list[i].stage < |tree| || (s == 0 == list[i].stage))
      && Complete(tree, models, list[i], path + [i], MustOf(tree, list[i].stage, s, n))
  }

  lemma CompleteLess(tree: seq<Stage>, models: Models, d: Detection, path: seq<nat>, more: set<int>, less: set<int>)
    requires Complete(tree, models, d, path, more) && less <= more
    ensures Complete(tree, models, d, path, less)
  {
    forall t: nat | 0 < t < |tree| ensures Shows(tree, models, d, path, less, t) {
      assert Shows(tree, models, d, path, more, t);
    }
  }

  lemma {:induction false} OfStageSum(a: seq<Detection>, b: seq<Detection>, s: int)
    ensures OfStage(a + b, s) == OfStage(a, s) + OfStage(b, s)
  {
    if b == [] {
      assert a + b == a;
    } else {
      assert (a + b)[..|a + b| - 1] == a + b[..|b| - 1];
      OfStageSum(a, b[..|b| - 1], s);
    }
  }

  lemma {:induction false} OfStageNone(list: seq<Detection>, s: int)
    requires forall i :: 0 <= i < |list| ==> list[i].stage != s
    ensures OfStage(list, s) == []
  {
    if list != [] { OfStageNone(list[..|list| - 1], s); }
  }

  lemma {:induction false} OfStageAll(list: seq<Detection>, s: int)
    requires forall i :: 0 <= i < |list| ==> list[i].stage == s
    ensures OfStage(list, s) == list
  {
    if list != [] { OfStageAll(list[..|list| - 1], s); }
  }

  lemma {:induction false} OfStageHeads(a: seq<Detection>, b: seq<Detection>, s: int)
    requires SameHeads(a, b)
    ensures SameHeads(OfStage(a, s), OfStage(b, s))
  {
    if a != [] { OfStageHeads(a[..|a| - 1], b[..|b| - 1], s); }
  }

  /** What a stage keeps is the reports that pass its filter, each placed in the frame. */
  lemma {:induction false} KeptAre(stage: Stage, s: nat, x: int, y: int, reports: seq<Report>)
    ensures AreReports(Kept(stage, s, x, y, reports), Passing(stage.config.classFilter, reports), x, y)
    ensures forall d <- Kept(stage, s, x, y, reports) :: d.stage == s && d.children == [] && d.embedding == []
  {
    if reports != [] { KeptAre(stage, s, x, y, reports[..|reports| - 1]); }
  }

  lemma Begins(tree: seq<Stage>, models: Models, s: nat, path: seq<nat>, d: Detection, must: set<int>, kept: seq<Detection>)
    requires Tree(tree) && 0 < s < |tree| && Off(tree, d, {s}) && Complete(tree, models, d, path, must)
    requires forall k <- kept :: k.stage == s && k.children == [] && k.embedding == []
    ensures Partial(tree, models, d.children + kept, path, s, 0) && AllOff(tree, d.children + kept, RestOf(tree, s, 0))
  {
    var list := d.children + kept;
    forall i | 0 <= i < |list|
      ensures 0 < list[i].stage < |tree| && Off(tree, list[i], RestOf(tree, s, 0))
      ensures Complete(tree, models, list[i], path + [i], MustOf(tree, list[i].stage, s, 0))
    {
      if i < |d.children| {
        assert list[i] == d.children[i];
        OffLess(tree, list[i], Kids(tree, {s}), RestOf(tree, s, 0));
      } else {
        assert list[i] in kept;
        NothingUnder(tree, models, list[i], path + [i], RestOf(tree, s, 0));
      }
    }
  }

  lemma NothingUnder(tree: seq<Stage>, models: Models, d: Detection, path: seq<nat>, from: set<int>)
    requires d.children == [] && d.embedding == []
    ensures Complete(tree, models, d, path, {}) && Off(tree, d, from)
  {
  }

  lemma NothingSeen(tree: seq<Stage>, models: Models, s: nat, path: seq<nat>, d: Detection, must: set<int>)
    requires 0 < s < |tree| && Off(tree, d, {s}) && Complete(tree, models, d, path, must)
    requires Takes(tree, s, d.classId) ==> models(s, path).Skipped?
    ensures Complete(tree, models, d, path, must + {s})
  {
    hide Described;
    hide Shows;
    assert Described(tree, models, d, path, must);
    StillDescribed(tree, models, s, path, d, must);
    forall t: nat | 0 < t < |tree| ensures Shows(tree, models, d, path, must + {s}, t) {
      assert Shows(tree, models, d, path, must, t);
      StillShows(tree, models, s, path, d, must, t);
    }
  }

  lemma StillDescribed(tree: seq<Stage>, models: Models, s: nat, path: seq<nat>, d: Detection, must: set<int>)
    requires 0 < s < |tree| && Described(tree, models, d, path, must)
    requires Takes(tree, s, d.classId) ==> models(s, path).Skipped?
    ensures Described(tree, models, d, path, must + {s})
  {
    hide Takes;
  }

  lemma StillShows(tree: seq<Stage>, models: Models, s: nat, path: seq<nat>, d: Detection, must: set<int>, t: nat)
    requires 0 < s < |tree| && t < |tree| && Shows(tree, models, d, path, must, t)
    requires forall i :: 0 <= i < |d.children| ==> d.children[i].stage != s
    requires Takes(tree, s, d.classId) ==> models(s, path).Skipped?
    ensures Shows(tree, models, d, path, must + {s}, t)
  {
    OfStageNone(d.children, s);
    hide OfStage;
    hide AreReports;
  }

  lemma DescribedAgain(tree: seq<Stage>, models: Models, s: nat, path: seq<nat>, d: Detection, must: set<int>, v: Detection)
    requires 0 < s < |tree| && Described(tree, models, d, path, must) && v.classId == d.classId
    requires Takes(tree, s, d.classId) && models(s, path).Looked?
    requires var given := models(s, path).embedding; v.embedding == if given.Some? then given.value else d.embedding
    ensures Described(tree, models, v, path, must + {s})
  {
    if models(s, path).embedding.Some? {
      assert Gave(tree, models, v, path, s);
    } else if t: nat :| Gave(tree, models, d, path, t) {
      assert Gave(tree, models, v, path, t);
    }
  }

  lemma Ends(tree: seq<Stage>, models: Models, s: nat, path: seq<nat>, d: Detection, must: set<int>, enriched: Detection, v: Detection)
    requires Tree(tree) && 0 < s < |tree| && Off(tree, d, {s}) && Complete(tree, models, d, path, must)
    requires Takes(tree, s, d.classId) && models(s, path).Looked?
    requires var look := models(s, path);
             enriched == Enriched(d, look.embedding, Kept(tree[s], s, look.x, look.y, look.reports))
    requires SameHead(v, enriched) && v.embedding == enriched.embedding && SameHeads(v.children, enriched.children)
    requires Partial(tree, models, v.children, path, s, |tree[s].children|)
    ensures SameHead(v, d) && Complete(tree, models, v, path, must + {s})
  {
    forall t: nat | 0 < t < |tree| ensures Shows(tree, models, v, path, must + {s}, t) {
      EndsFor(tree, models, s, path, d, must, enriched, v, t);
    }
    assert Described(tree, models, v, path, must + {s}) by { DescribedAgain(tree, models, s, path, d, must, v); }
    forall i | 0 <= i < |v.children|
      ensures 0 < v.children[i].stage < |tree|
      ensures Complete(tree, models, v.children[i], path + [i], Below(tree, v.children[i].stage))
    {
      assert Below(tree, s) <= FirstOf(tree, s, |tree[s].children|);
      CompleteLess(tree, models, v.children[i], path + [i], MustOf(tree, v.children[i].stage, s, |tree[s].children|),
                   Below(tree, v.children[i].stage));
    }
  }

  /** What the children of a detection are, stage by stage, once `s` has added what it kept. */
  lemma AddedTo(children: seq<Detection>, kept: seq<Detection>, s: int, v: seq<Detection>, t: int)
    requires SameHeads(v, children + kept)
    requires (forall i :: 0 <= i < |children| ==> children[i].stage != s) && forall k <- kept :: k.stage == s
    ensures SameHeads(OfStage(v, t), if t == s then kept else OfStage(children, t))
  {
    hide SameHeads;
    hide OfStage;
    OfStageHeads(v, children + kept, t);
    OfStageSum(children, kept, t);
    if t == s {
      OfStageNone(children, s);
      OfStageAll(kept, s);
      assert [] + kept == kept;
    } else {
      OfStageNone(kept, t);
      assert OfStage(children, t) + [] == OfStage(children, t);
    }
  }

  lemma EndsFor(tree: seq<Stage>, models: Models, s: nat, path: seq<nat>, d: Detection, must: set<int>, enriched: Detection,
                v: Detection, t: nat)
    requires Tree(tree) && 0 < s < |tree| && Off(tree, d, {s}) && Complete(tree, models, d, path, must) && 0 < t < |tree|
    requires Takes(tree, s, d.classId) && models(s, path).Looked?
    requires var look := models(s, path);
             enriched == Enriched(d, look.embedding, Kept(tree[s], s, look.x, look.y, look.reports))
    requires SameHead(v, enriched) && SameHeads(v.children, enriched.children)
    ensures Shows(tree, models, v, path, must + {s}, t)
  {
    hide SameHeads;
    hide OfStage;
    hide Kept;
    var look := models(s, path);
    var kept := Kept(tree[s], s, look.x, look.y, look.reports);
    KeptAre(tree[s], s, look.x, look.y, look.reports);
    AddedTo(d.children, kept, s, v.children, t);
    if t == s {
      EndsOwn(tree, models, s, path, must, kept, v);
    } else {
      EndsOther(tree, models, s, path, d, must, v, t);
    }
  }

  lemma EndsOwn(tree: seq<Stage>, models: Models, s: nat, path: seq<nat>, must: set<int>, kept: seq<Detection>, v: Detection)
    requires s < |tree| && Takes(tree, s, v.classId) && models(s, path).Looked? && SameHeads(OfStage(v.children, s), kept)
    requires var look := models(s, path);
             AreReports(kept, Passing(tree[s].config.classFilter, look.reports), look.x, look.y)
    ensures Shows(tree, models, v, path, must + {s}, s)
  {
    hide OfStage;
    FindsIt(tree, models, s, path, v.classId, kept, OfStage(v.children, s));
  }

  lemma EndsOther(tree: seq<Stage>, models: Models, s: nat, path: seq<nat>, d: Detection, must: set<int>, v: Detection, t: nat)
    requires t < |tree| && t != s && Shows(tree, models, d, path, must, t) && v.classId == d.classId
    requires SameHeads(OfStage(v.children, t), OfStage(d.children, t))
    ensures Shows(tree, models, v, path, must + {s}, t)
  {
    hide OfStage;
    FindsSame(tree, models, t, path, d.classId, OfStage(d.children, t), OfStage(v.children, t));
  }

  lemma FindsIt(tree: seq<Stage>, models: Models, s: nat, path: seq<nat>, classId: int, kept: seq<Detection>, found: seq<Detection>)
    requires s < |tree| && Takes(tree, s, classId) && models(s, path).Looked? && SameHeads(found, kept)
    requires var look := models(s, path);
             AreReports(kept, Passing(tree[s].config.classFilter, look.reports), look.x, look.y)
    ensures Finds(tree, models, s, path, classId, found)
  {
    hide Passing;
  }

  lemma FindsSame(tree: seq<Stage>, models: Models, t: nat, path: seq<nat>, classId: int, a: seq<Detection>, b: seq<Detection>)
    requires t < |tree| && SameHeads(b, a)
    ensures Finds(tree, models, t, path, classId, a) ==> Finds(tree, models, t, path, classId, b)
  {
    hide Passing;
  }

  lemma {:induction false} OverComplete(tree: seq<Stage>, models: Models, s: nat, path: seq<nat>, parents: seq<Detection>,
                                        i: nat, must: set<int>)
    requires Tree(tree) && 0 < s < |tree| && i < |parents|
    requires Off(tree, parents[i], {s}) && Complete(tree, models, parents[i], path + [i], must)
    ensures var r := RunOver(tree, models, s, path, parents);
            r.Ok? ==> |r.value| == |parents| && Complete(tree, models, r.value[i], path + [i], must + {s})
    decreases |tree| - s, 2, |parents|
  {
    hide Tree;
    hide Off;
    hide Complete;
    hide RunOn;
    var n := |parents| - 1;
    OverNext(tree, models, s, path, parents);
    hide RunOver;
    if i < n {
      OverComplete(tree, models, s, path, parents[..n], i, must);
    } else {
      OnComplete(tree, models, s, path + [n], parents[n], must);
    }
  }

  lemma OverNext(tree: seq<Stage>, models: Models, s: nat, path: seq<nat>, parents: seq<Detection>)
    requires Tree(tree) && s < |tree| && parents != []
    ensures Forward(tree)
    ensures var n := |parents| - 1;
            var r, before := RunOver(tree, models, s, path, parents), RunOver(tree, models, s, path, parents[..n]);
            r.Ok? ==>
              && before.Ok? && |before.value| == n && |r.value| == n + 1 && r.value[..n] == before.value
              && RunOn(tree, models, s, path + [n], parents[n]) == Ok(r.value[n])
  {
    assert Forward(tree);
    hide RunOn;
    OverLength(tree, models, s, path, parents[..|parents| - 1]);
  }

  lemma {:induction false} OverLength(tree: seq<Stage>, models: Models, s: nat, path: seq<nat>, parents: seq<Detection>)
    requires Forward(tree) && s < |tree|
    ensures var r := RunOver(tree, models, s, path, parents); r.Ok? ==> |r.value| == |parents|
  {
    hide RunOn;
    if parents != [] { OverLength(tree, models, s, path, parents[..|parents| - 1]); }
  }

  lemma {:induction false} OnComplete(tree: seq<Stage>, models: Models, s: nat, path: seq<nat>, d: Detection, must: set<int>)
    requires Tree(tree) && 0 < s < |tree| && Off(tree, d, {s}) && Complete(tree, models, d, path, must)
    ensures var r := RunOn(tree, models, s, path, d);
            r.Ok? ==> SameHead(r.value, d) && Complete(tree, models, r.value, path, must + {s})
    decreases |tree| - s, 1, 0
  {
    assert Forward(tree);
    hide Complete;
    hide Off;
    hide Partial;
    hide AllOff;
    hide Tree;
    hide SameHeads;
    if PassesFilter(tree[s].config.inputClasses, d.classId) && models(s, path).Looked? {
      var look := models(s, path);
      var kept := Kept(tree[s], s, look.x, look.y, look.reports);
      var enriched := Enriched(d, look.embedding, kept);
      KeptAre(tree[s], s, look.x, look.y, look.reports);
      Begins(tree, models, s, path, d, must, kept);
      BelowComplete(tree, models, s, |tree[s].children|, path, enriched);
      var run := RunBelow(tree, models, s, |tree[s].children|, path, enriched);
      hide RunBelow;
      if run.Ok? { Ends(tree, models, s, path, d, must, enriched, run.value); }
    } else if !(Takes(tree, s, d.classId) && models(s, path).Failed?) {
      NothingSeen(tree, models, s, path, d, must);
    }
  }

  lemma {:induction false} BelowComplete(tree: seq<Stage>, models: Models, s: nat, n: nat, path: seq<nat>, parent: Detection)
    requires Tree(tree) && s < |tree| && n <= |tree[s].children|
    requires Partial(tree, models, parent.children, path, s, 0) && AllOff(tree, parent.children, RestOf(tree, s, 0))
    ensures var r := RunBelow(tree, models, s, n, path, parent);
            r.Ok? ==>
              && SameHead(r.value, parent) && r.value.embedding == parent.embedding
              && SameHeads(r.value.children, parent.children)
              && Partial(tree, models, r.value.children, path, s, n) && AllOff(tree, r.value.children, RestOf(tree, s, n))
    decreases |tree| - s, 0, n
  {
    hide Complete;
    hide Off;
    hide Partial;
    hide AllOff;
    if n > 0 {
      BelowComplete(tree, models, s, n - 1, path, parent);
      var before, t := RunBelow(tree, models, s, n - 1, path, parent), tree[s].children[n - 1];
      if before.Ok? {
        OneMoreRuns(tree, models, s, n, path, before.value.children);
        hide RunOver;
      }
    }
  }

  lemma {:induction false} OneMoreRuns(tree: seq<Stage>, models: Models, s: nat, n: nat, path: seq<nat>, list: seq<Detection>)
    requires Tree(tree) && s < |tree| && 0 < n <= |tree[s].children|
    requires Partial(tree, models, list, path, s, n - 1) && AllOff(tree, list, RestOf(tree, s, n - 1))
    ensures var r := RunOver(tree, models, tree[s].children[n - 1], path, list);
            r.Ok? ==>
              && SameHeads(r.value, list)
              && Partial(tree, models, r.value, path, s, n) && AllOff(tree, r.value, RestOf(tree, s, n))
    decreases |tree| - s, 0, 0
  {
    hide Complete;
    hide Off;
    hide RunOver;
    var t := tree[s].children[n - 1];
    forall i | 0 <= i < |list| ensures Off(tree, list[i], {t}) && Off(tree, list[i], RestOf(tree, s, n)) {
      OffLess(tree, list[i], RestOf(tree, s, n - 1), {t});
      OffLess(tree, list[i], RestOf(tree, s, n - 1), RestOf(tree, s, n));
    }
    OverOff(tree, models, t, path, list, RestOf(tree, s, n));
    var r := RunOver(tree, models, t, path, list);
    if r.Ok? {
      forall i | 0 <= i < |list| ensures Complete(tree, models, r.value[i], path + [i], MustOf(tree, r.value[i].stage, s, n)) {
        var must := MustOf(tree, list[i].stage, s, n - 1);
        OverComplete(tree, models, t, path, list, i, must);
        assert SameHead(r.value[i], list[i]);
        CompleteLess(tree, models, r.value[i], path + [i], must + {t}, MustOf(tree, r.value[i].stage, s, n));
      }
    }
  }

  /** For every accepted stage list and whatever the models report: what a run returns is stage 0's
      reports that pass its filter, in order, each where it was reported; under every detection at
      every depth hangs, for each stage, all or nothing of what that stage reported there and its
      filter passes, in order, shifted by the corner of the image it was reported in; and each
      stage configured under a detection's own has looked at it. */
  lemma FindsExactly(stages: seq<AiStage>, names: set<string>, transforms: set<string>, models: Models, reports: seq<Report>)
    requires ValidStages(stages, names, transforms)
    ensures Tree(Loaded(stages))
    ensures var tree := Loaded(stages);
            var r := RunTree(tree, models, reports);
            r.Ok? ==>
              && AreReports(r.value, Passing(stages[0].classFilter, reports), 0, 0)
              && forall i :: 0 <= i < |r.value| ==>
                   r.value[i].stage == 0 && Complete(tree, models, r.value[i], [i], Below(tree, 0))
  {
    LoadedIsTree(stages);
    var tree := Loaded(stages);
    hide Tree;
    hide Complete;
    hide AreReports;
    hide RunTree;
    RunFinds(tree, models, reports);
  }

  lemma RunFinds(tree: seq<Stage>, models: Models, reports: seq<Report>)
    requires Tree(tree)
    ensures var r := RunTree(tree, models, reports);
            r.Ok? ==>
              && AreReports(r.value, Passing(tree[0].config.classFilter, reports), 0, 0)
              && forall i :: 0 <= i < |r.value| ==>
                   r.value[i].stage == 0 && Complete(tree, models, r.value[i], [i], Below(tree, 0))
  {
    var kept := Kept(tree[0], 0, 0, 0, reports);
    var all := |tree[0].children|;
    KeptAre(tree[0], 0, 0, 0, reports);
    RootBegins(tree, models, kept);
    BelowComplete(tree, models, 0, all, [], Frame(kept));
    var run := RunBelow(tree, models, 0, all, [], Frame(kept));
    assert run.Ok? ==> RunTree(tree, models, reports) == Ok(run.value.children);
    hide RunBelow;
    hide RunTree;
    if run.Ok? {
      FindsIs(run.value.children, kept, Passing(tree[0].config.classFilter, reports));
      RootEnds(tree, models, kept, run.value.children);
    }
  }

  lemma {:induction false} RootEnds(tree: seq<Stage>, models: Models, kept: seq<Detection>, list: seq<Detection>)
    requires Tree(tree) && SameHeads(list, kept) && Partial(tree, models, list, [], 0, |tree[0].children|)
    requires forall k <- kept :: k.stage == 0
    ensures forall i :: 0 <= i < |list| ==> list[i].stage == 0 && Complete(tree, models, list[i], [i], Below(tree, 0))
  {
    hide Complete;
    var all := |tree[0].children|;
    assert Below(tree, 0) <= FirstOf(tree, 0, all);
    forall i | 0 <= i < |list| ensures list[i].stage == 0 && Complete(tree, models, list[i], [i], Below(tree, 0)) {
      assert SameHead(list[i], kept[i]) && kept[i] in kept && [] + [i] == [i];
      CompleteLess(tree, models, list[i], [i], FirstOf(tree, 0, all), Below(tree, 0));
    }
  }

  lemma FindsIs(list: seq<Detection>, kept: seq<Detection>, reports: seq<Report>)
    requires SameHeads(list, kept) && AreReports(kept, reports, 0, 0)
    ensures AreReports(list, reports, 0, 0)
  {
  }

  lemma RootBegins(tree: seq<Stage>, models: Models, kept: seq<Detection>)
    requires tree != [] && forall k <- kept :: k.stage == 0 && k.children == [] && k.embedding == []
    ensures Partial(tree, models, Frame(kept).children, [], 0, 0) && AllOff(tree, Frame(kept).children, RestOf(tree, 0, 0))
  {
    hide Complete;
    hide Off;
    hide RestOf;
    assert FirstOf(tree, 0, 0) == {};
    forall i | 0 <= i < |kept| ensures Complete(tree, models, kept[i], [i], {}) && Off(tree, kept[i], RestOf(tree, 0, 0)) {
      assert kept[i] in kept;
      NothingUnder(tree, models, kept[i], [i], RestOf(tree, 0, 0));
    }
    forall i | 0 <= i < |kept| ensures kept[i].stage == 0 && [] + [i] == [i] { assert kept[i] in kept; }
  }

  ghost predicate NothingFails(tree: seq<Stage>, models: Models) {
    forall s: nat, path: seq<nat> :: 0 < s < |tree| ==> !models(s, path).Failed?
  }

  /** A run comes to nothing only when some stage below the first fails: a detection whose transform
      does not apply, or that a filter keeps a stage from, does not stop it. */
  lemma OnlyFailureFails(tree: seq<Stage>, models: Models, reports: seq<Report>)
    requires Tree(tree) && RunTree(tree, models, reports).Error?
    ensures exists s: nat, path: seq<nat> :: 0 < s < |tree| && models(s, path).Failed?
  {
    if NothingFails(tree, models) {
      BelowEnds(tree, models, 0, |tree[0].children|, [], Frame(Kept(tree[0], 0, 0, 0, reports)));
    }
  }

  lemma {:induction false} OverEnds(tree: seq<Stage>, models: Models, s: nat, path: seq<nat>, parents: seq<Detection>)
    requires Forward(tree) && 0 < s < |tree| && NothingFails(tree, models)
    ensures RunOver(tree, models, s, path, parents).Ok?
    decreases |tree| - s, 2, |parents|
  {
    hide NothingFails;
    if parents != [] {
      var n := |parents| - 1;
      OverEnds(tree, models, s, path, parents[..n]);
      OnEnds(tree, models, s, path + [n], parents[n]);
      hide RunOn;
    }
  }

  lemma {:induction false} OnEnds(tree: seq<Stage>, models: Models, s: nat, path: seq<nat>, d: Detection)
    requires Forward(tree) && 0 < s < |tree| && NothingFails(tree, models)
    ensures RunOn(tree, models, s, path, d).Ok?
    decreases |tree| - s, 1, 0
  {
    if PassesFilter(tree[s].config.inputClasses, d.classId) && models(s, path).Looked? {
      var look := models(s, path);
      hide NothingFails;
      hide Kept;
      BelowEnds(tree, models, s, |tree[s].children|, path,
                Enriched(d, look.embedding, Kept(tree[s], s, look.x, look.y, look.reports)));
      hide RunBelow;
    }
  }

  lemma {:induction false} BelowEnds(tree: seq<Stage>, models: Models, s: nat, n: nat, path: seq<nat>, parent: Detection)
    requires Forward(tree) && s < |tree| && NothingFails(tree, models) && n <= |tree[s].children|
    ensures RunBelow(tree, models, s, n, path, parent).Ok?
    decreases |tree| - s, 0, n
  {
    hide NothingFails;
    if n > 0 {
      BelowEnds(tree, models, s, n - 1, path, parent);
      var before := RunBelow(tree, models, s, n - 1, path, parent);
      OverEnds(tree, models, tree[s].children[n - 1], path, before.value.children);
      hide RunOver;
    }
  }

  // ---------------------------------------------------------------- under which detection

  /** Every detection hangs under one of its stage's configured parent. */
  ghost predicate Strict(tree: seq<Stage>, d: Detection)
    decreases d
  {
    forall i :: 0 <= i < |d.children| ==>
      && 0 <= d.children[i].stage < |tree| && tree[d.children[i].stage].config.parent == d.stage
      && Strict(tree, d.children[i])
  }

  ghost predicate AllStrict(tree: seq<Stage>, list: seq<Detection>, stage: int) {
    forall i :: 0 <= i < |list| ==> Strict(tree, list[i]) && list[i].stage == stage
  }

  predicate Emits(tree: seq<Stage>, s: nat, classId: int)
    requires s < |tree|
  {
    PassesFilter(tree[s].config.classFilter, classId)
  }

  predicate Takes(tree: seq<Stage>, s: nat, classId: int)
    requires s < |tree|
  {
    PassesFilter(tree[s].config.inputClasses, classId)
  }

  /** A stage can get something to look at: on the way down to it, every stage takes some class its parent emits. */
  ghost predicate Feasible(tree: seq<Stage>, s: nat)
    requires Tree(tree) && s < |tree|
  {
    s == 0 ||
    (Feasible(tree, tree[s].config.parent) && exists c :: Emits(tree, tree[s].config.parent, c) && Takes(tree, s, c))
  }

  /** Stages `r` and then `s` look at what `p` finds, and `t` at what `s` finds: one class reaches
      both siblings, and another takes what `r` finds on to `t`. */
  ghost predicate Crossing(tree: seq<Stage>, p: nat, r: nat, s: nat, t: nat)
    requires Tree(tree)
  {
    && p < r < s < t < |tree|
    && tree[r].config.parent == p && tree[s].config.parent == p && tree[t].config.parent == s
    && Feasible(tree, p)
    && (exists c :: Emits(tree, p, c) && Takes(tree, r, c) && Takes(tree, s, c))
    && (exists e :: Emits(tree, r, e) && Takes(tree, t, e))
  }

  ghost predicate NothingCrosses(tree: seq<Stage>)
    requires Tree(tree)
  {
    forall p: nat, r: nat, s: nat, t: nat :: !Crossing(tree, p, r, s, t)
  }

  lemma CrossingBy(tree: seq<Stage>, p: nat, r: nat, s: nat, t: nat, c: int, e: int)
    requires Tree(tree) && p < r < s < t < |tree| && Feasible(tree, p)
    requires tree[r].config.parent == p && tree[s].config.parent == p && tree[t].config.parent == s
    requires Emits(tree, p, c) && Takes(tree, r, c) && Takes(tree, s, c) && Emits(tree, r, e) && Takes(tree, t, e)
    ensures Crossing(tree, p, r, s, t)
  {
  }

  /** What hangs directly under a detection: found on it by a stage below its own, of a class that stage emits. */
  predicate Fits(tree: seq<Stage>, d: Detection, x: Detection, bound: nat)
    requires bound <= |tree|
  {
    0 < x.stage < bound && tree[x.stage].config.parent == d.stage && Takes(tree, x.stage, d.classId) && Emits(tree, x.stage, x.classId)
  }

  /** A detection in its place, with nothing under it yet from stage `bound` on. */
  ghost predicate Tidy(tree: seq<Stage>, d: Detection, bound: nat)
    requires Tree(tree) && bound <= |tree|
  {
    && 0 <= d.stage < |tree| && Feasible(tree, d.stage) && Emits(tree, d.stage, d.classId) && Strict(tree, d)
    && forall i :: 0 <= i < |d.children| ==> Fits(tree, d, d.children[i], bound)
  }

  /** The first `f` are none of stage `s`'s business; the others are its parent's, and in place. */
  ghost predicate Divided(tree: seq<Stage>, list: seq<Detection>, f: nat, s: nat, bound: nat)
    requires Tree(tree) && 0 < s < |tree| && bound <= |tree|
  {
    && f <= |list|
    && (forall i :: 0 <= i < f ==> !Takes(tree, s, list[i].classId))
    && (forall i :: f <= i < |list| ==> Tidy(tree, list[i], bound) && list[i].stage == tree[s].config.parent)
  }

  /** What a run leaves of such a list. */
  ghost predicate Rest(tree: seq<Stage>, before: seq<Detection>, after: seq<Detection>, f: nat, bound: nat)
    requires Tree(tree) && bound <= |tree|
  {
    && |after| == |before| && f <= |before| && after[..f] == before[..f]
    && forall i :: f <= i < |after| ==> Tidy(tree, after[i], bound) && SameHead(after[i], before[i])
  }

  lemma {:induction false} OverTidy(tree: seq<Stage>, models: Models, s: nat, path: seq<nat>, parents: seq<Detection>, f: nat)
    requires Tree(tree) && NothingCrosses(tree) && 0 < s < |tree| && Divided(tree, parents, f, s, s)
    ensures var r := RunOver(tree, models, s, path, parents); r.Ok? ==> Rest(tree, parents, r.value, f, s + 1)
    decreases |tree| - s, 2, |parents|
  {
    assert Forward(tree);
    hide Tree;
    hide NothingCrosses;
    hide Tidy;
    hide Divided;
    hide Rest;
    if |parents| == f {
      OverForeign(tree, models, s, path, parents);
    } else {
      hide RunOn;
      var n := |parents| - 1;
      OverTidy(tree, models, s, path, parents[..n], f);
      OnTidy(tree, models, s, path + [n], parents[n]);
      var before, last := RunOver(tree, models, s, path, parents[..n]), RunOn(tree, models, s, path + [n], parents[n]);
      if before.Ok? && last.Ok? { RestGrows(tree, parents, before.value, last.value, f, s + 1); }
    }
  }

  lemma RestGrows(tree: seq<Stage>, parents: seq<Detection>, before: seq<Detection>, last: Detection, f: nat, bound: nat)
    requires Tree(tree) && bound <= |tree| && f < |parents| && Rest(tree, parents[..|parents| - 1], before, f, bound)
    requires Tidy(tree, last, bound) && SameHead(last, parents[|parents| - 1])
    ensures Rest(tree, parents, before + [last], f, bound)
  {
    hide Tidy;
    assert (before + [last])[..f] == before[..f] && parents[..|parents| - 1][..f] == parents[..f];
  }

  /** A stage leaves alone what it does not take. */
  lemma {:induction false} OverForeign(tree: seq<Stage>, models: Models, s: nat, path: seq<nat>, parents: seq<Detection>)
    requires Forward(tree) && s < |tree| && forall i :: 0 <= i < |parents| ==> !Takes(tree, s, parents[i].classId)
    ensures RunOver(tree, models, s, path, parents) == Ok(parents)
  {
    if parents != [] {
      var n := |parents| - 1;
      OverForeign(tree, models, s, path, parents[..n]);
      assert RunOn(tree, models, s, path + [n], parents[n]) == Ok(parents[n]);
      assert parents[..n] + [parents[n]] == parents;
    }
  }

  lemma {:induction false} OnTidy(tree: seq<Stage>, models: Models, s: nat, path: seq<nat>, d: Detection)
    requires Tree(tree) && NothingCrosses(tree) && 0 < s < |tree| && Tidy(tree, d, s) && d.stage == tree[s].config.parent
    ensures var r := RunOn(tree, models, s, path, d); r.Ok? ==> Tidy(tree, r.value, s + 1) && SameHead(r.value, d)
    decreases |tree| - s, 1, 0
  {
    assert Forward(tree);
    if PassesFilter(tree[s].config.inputClasses, d.classId) {
      match models(s, path)
      case Skipped =>
      case Failed =>
      case Looked(x, y, embedding, reports) =>
        var kept := Kept(tree[s], s, x, y, reports);
        var enriched := Enriched(d, embedding, kept);
        NewlyKept(tree, s, x, y, reports, d);
        ForeignToAll(tree, s, d);
        BelowTidy(tree, models, s, |tree[s].children|, path, enriched, |d.children|);
        var run := RunBelow(tree, models, s, |tree[s].children|, path, enriched);
        if run.Ok? {
          hide RunBelow;
          hide Kept;
          TidyAgain(tree, s, d, enriched, run.value);
        }
    }
  }

  lemma NewlyKept(tree: seq<Stage>, s: nat, x: int, y: int, reports: seq<Report>, d: Detection)
    requires Tree(tree) && 0 < s < |tree| && Tidy(tree, d, s) && d.stage == tree[s].config.parent && Takes(tree, s, d.classId)
    ensures forall k <- Kept(tree[s], s, x, y, reports) :: Tidy(tree, k, 0) && k.stage == s && Fits(tree, d, k, s + 1)
  {
    KeptSound(tree, s, x, y, reports);
    KeptEmitted(tree[s], s, x, y, reports);
    assert Feasible(tree, s) by { assert Emits(tree, d.stage, d.classId); }
    hide Kept;
    hide Feasible;
  }

  lemma {:induction false} KeptEmitted(stage: Stage, s: nat, x: int, y: int, reports: seq<Report>)
    ensures forall k <- Kept(stage, s, x, y, reports) :: PassesFilter(stage.config.classFilter, k.classId)
  {
    if reports != [] { KeptEmitted(stage, s, x, y, reports[..|reports| - 1]); }
  }

  /** What the siblings before `s` found on a detection is not taken by any stage below `s`. */
  lemma ForeignToAll(tree: seq<Stage>, s: nat, d: Detection)
    requires Tree(tree) && NothingCrosses(tree) && 0 < s < |tree| && Tidy(tree, d, s) && d.stage == tree[s].config.parent
    requires Takes(tree, s, d.classId)
    ensures forall i, k :: 0 <= i < |d.children| && 0 <= k < |tree[s].children| ==>
              !Takes(tree, tree[s].children[k], d.children[i].classId)
  {
    forall i, k | 0 <= i < |d.children| && 0 <= k < |tree[s].children|
      ensures !Takes(tree, tree[s].children[k], d.children[i].classId)
    {
      assert Fits(tree, d, d.children[i], s);
      var r, t := d.children[i].stage, tree[s].children[k];
      hide Feasible;
      hide Strict;
      hide Crossing;
      if Takes(tree, t, d.children[i].classId) { CrossingBy(tree, d.stage, r, s, t, d.classId, d.children[i].classId); }
    }
  }

  /** The stage from which on nothing hangs under the detections of `s` once `n` stages below it have run. */
  function Bound(tree: seq<Stage>, s: nat, n: nat): nat
    requires Forward(tree) && s < |tree| && n <= |tree[s].children|
  {
    if n == 0 then 0 else tree[s].children[n - 1] + 1
  }

  /** Before the stages below `s` run: what siblings found, which none of them takes, and then what `s` found. */
  ghost predicate Begun(tree: seq<Stage>, s: nat, list: seq<Detection>, f: nat)
    requires Tree(tree) && s < |tree|
  {
    && f <= |list|
    && (forall i, k :: 0 <= i < f && 0 <= k < |tree[s].children| ==> !Takes(tree, tree[s].children[k], list[i].classId))
    && (forall i :: f <= i < |list| ==> Tidy(tree, list[i], 0) && list[i].stage == s)
  }

  lemma {:induction false} BelowTidy(tree: seq<Stage>, models: Models, s: nat, n: nat, path: seq<nat>, parent: Detection, f: nat)
    requires Tree(tree) && NothingCrosses(tree) && s < |tree| && n <= |tree[s].children| && Begun(tree, s, parent.children, f)
    ensures var r := RunBelow(tree, models, s, n, path, parent);
            r.Ok? ==> SameHead(r.value, parent) && Rest(tree, parent.children, r.value.children, f, Bound(tree, s, n))
    decreases |tree| - s, 0, n
  {
    assert Forward(tree);
    if n == 0 {
      assert Rest(tree, parent.children, parent.children, f, 0);
    } else {
      hide NothingCrosses;
      hide Tree;
      hide Begun;
      hide Rest;
      hide Tidy;
      hide Kept;
      BelowTidy(tree, models, s, n - 1, path, parent, f);
      var before, t := RunBelow(tree, models, s, n - 1, path, parent), tree[s].children[n - 1];
      if before.Ok? {
        NextDivided(tree, s, n, parent.children, before.value.children, f);
        OverTidy(tree, models, t, path, before.value.children, f);
        hide RunOver;
        hide Divided;
        var after := RunOver(tree, models, t, path, before.value.children);
      }
    }
  }

  lemma NextDivided(tree: seq<Stage>, s: nat, n: nat, first: seq<Detection>, list: seq<Detection>, f: nat)
    requires Tree(tree) && s < |tree| && 0 < n <= |tree[s].children| && Rest(tree, first, list, f, Bound(tree, s, n - 1))
    requires Begun(tree, s, first, f)
    ensures Divided(tree, list, f, tree[s].children[n - 1], tree[s].children[n - 1])
  {
    var t := tree[s].children[n - 1];
    assert Bound(tree, s, n - 1) <= t;
    forall i | 0 <= i < f ensures !Takes(tree, t, list[i].classId) { assert list[..f][i] == first[..f][i]; }
    forall i | f <= i < |list| ensures Tidy(tree, list[i], t) { Looser(tree, list[i], Bound(tree, s, n - 1), t); }
    hide Tidy;
  }

  lemma Looser(tree: seq<Stage>, d: Detection, a: nat, b: nat)
    requires Tree(tree) && a <= b <= |tree| && Tidy(tree, d, a)
    ensures Tidy(tree, d, b)
  {
    hide Feasible;
    hide Strict;
  }

  /** With the siblings' findings untouched and the stage's own in place, so is the detection. */
  lemma TidyAgain(tree: seq<Stage>, s: nat, d: Detection, enriched: Detection, v: Detection)
    requires Tree(tree) && 0 < s < |tree| && Tidy(tree, d, s) && d.stage == tree[s].config.parent
    requires SameHead(enriched, d) && SameHead(v, enriched)
    requires |d.children| <= |enriched.children| && enriched.children[..|d.children|] == d.children
    requires forall i :: |d.children| <= i < |enriched.children| ==> Fits(tree, d, enriched.children[i], s + 1) && enriched.children[i].stage == s
    requires exists bound: nat :: bound <= |tree| && Rest(tree, enriched.children, v.children, |d.children|, bound)
    ensures Tidy(tree, v, s + 1)
  {
    var f := |d.children|;
    hide Feasible;
    forall i | 0 <= i < |v.children|
      ensures Fits(tree, v, v.children[i], s + 1) && Strict(tree, v.children[i])
    {
      if i < f {
        assert v.children[..f][i] == enriched.children[..f][i] == d.children[i];
        assert Fits(tree, d, d.children[i], s);
      } else {
        assert Fits(tree, d, enriched.children[i], s + 1);
      }
    }
  }

  /** When nothing crosses, whatever the models find, every detection of every stage hangs under a
      detection of that stage's parent. */
  lemma StrictWhenNothingCrosses(tree: seq<Stage>, models: Models, reports: seq<Report>)
    requires Tree(tree) && NothingCrosses(tree)
    ensures PlacesWell(tree, models, reports)
  {
    var frame := Frame(Kept(tree[0], 0, 0, 0, reports));
    KeptSound(tree, 0, 0, 0, reports);
    KeptEmitted(tree[0], 0, 0, 0, reports);
    hide Kept;
    BelowTidy(tree, models, 0, |tree[0].children|, [], frame, 0);
    hide RunBelow;
    hide Feasible;
  }

  /** A stage with an earlier sibling has nothing below it. */
  predicate OnlyFirstNests(stages: seq<AiStage>) {
    forall r, s, t :: 0 < r < s < |stages| && 0 < t < |stages| && stages[r].parent == stages[s].parent ==> stages[t].parent != s
  }

  lemma NestedFirst(tree: seq<Stage>, p: nat, r: nat, s: nat, t: nat)
    requires Tree(tree) && OnlyFirstNests(Configs(tree))
    ensures !Crossing(tree, p, r, s, t)
  {
    if p < r < s < t < |tree| {
      var configs := Configs(tree);
      assert configs[r] == tree[r].config && configs[s] == tree[s].config && configs[t] == tree[t].config;
    }
  }

  /** In particular when only first children have children of their own. */
  lemma StrictWhenOnlyFirstNests(tree: seq<Stage>, models: Models, reports: seq<Report>)
    requires Tree(tree) && OnlyFirstNests(Configs(tree))
    ensures var r := RunTree(tree, models, reports); r.Ok? ==> AllStrict(tree, r.value, 0)
  {
    forall p: nat, r: nat, s: nat, t: nat ensures !Crossing(tree, p, r, s, t) { NestedFirst(tree, p, r, s, t); }
    StrictWhenNothingCrosses(tree, models, reports);
    hide Tree;
    hide RunTree;
  }

  // ---------------------------------------------------------------- and only then

  function Sees(classId: int): Report { Report(Box(0.0, 0.0, 1.0, 1.0), classId) }

  /** Every model sees one thing wherever it looks, of the class given for its stage. */
  function Seeing(classes: seq<int>): Models {
    (s: nat, path: seq<nat>) => Looked(0, 0, None, if s < |classes| then [Sees(classes[s])] else [])
  }

  /** `b` is `a` with more added under it, anywhere. */
  ghost predicate Grown(a: Detection, b: Detection)
    decreases a
  {
    && a.stage == b.stage && a.classId == b.classId && |a.children| <= |b.children|
    && forall i :: 0 <= i < |a.children| ==> Grown(a.children[i], b.children[i])
  }

  lemma {:induction false} GrownSelf(a: Detection)
    ensures Grown(a, a)
    decreases a
  {
    forall i | 0 <= i < |a.children| ensures Grown(a.children[i], a.children[i]) { GrownSelf(a.children[i]); }
  }

  lemma {:induction false} GrownOnce(a: Detection, b: Detection, c: Detection)
    requires Grown(a, b) && Grown(b, c)
    ensures Grown(a, c)
    decreases a
  {
    forall i | 0 <= i < |a.children| ensures Grown(a.children[i], c.children[i]) {
      GrownOnce(a.children[i], b.children[i], c.children[i]);
    }
  }

  lemma {:induction false} GrownNotStrict(tree: seq<Stage>, a: Detection, b: Detection)
    requires Grown(a, b) && !Strict(tree, a)
    ensures !Strict(tree, b)
    decreases a
  {
    var i :| 0 <= i < |a.children| && !(0 <= a.children[i].stage < |tree|
             && tree[a.children[i].stage].config.parent == a.stage && Strict(tree, a.children[i]));
    assert Grown(a.children[i], b.children[i]);
    if !Strict(tree, a.children[i]) { GrownNotStrict(tree, a.children[i], b.children[i]); }
  }

  /** Where nothing fails a stage goes over every detection, and nothing is lost. */
  lemma {:induction false} OverSees(tree: seq<Stage>, classes: seq<int>, s: nat, path: seq<nat>, parents: seq<Detection>)
    requires Forward(tree) && s < |tree|
    ensures var r := RunOver(tree, Seeing(classes), s, path, parents);
            && r.Ok? && |r.value| == |parents|
            && forall i :: 0 <= i < |parents| ==>
                 RunOn(tree, Seeing(classes), s, path + [i], parents[i]) == Ok(r.value[i]) && Grown(parents[i], r.value[i])
    decreases |tree| - s, 2, |parents|
  {
    hide Forward;
    if parents != [] {
      var n := |parents| - 1;
      OverSees(tree, classes, s, path, parents[..n]);
      OnSees(tree, classes, s, path + [n], parents[n]);
      hide RunOn;
    }
  }

  /** The detection a stage adds, before the stages below it run. */
  function Added(s: nat, classId: int): Detection {
    Detection(Sees(classId).box, classId, [], Some(Moved(Sees(classId).box, 0, 0)), s, [])
  }

  /** What a stage makes of a detection it takes, before the stages below it run. */
  ghost function Looking(tree: seq<Stage>, classes: seq<int>, s: nat, parent: Detection): Detection
    requires s < |tree|
  {
    Enriched(parent, None, Kept(tree[s], s, 0, 0, if s < |classes| then [Sees(classes[s])] else []))
  }

  lemma OnIs(tree: seq<Stage>, classes: seq<int>, s: nat, path: seq<nat>, parent: Detection)
    requires Forward(tree) && s < |tree| && Takes(tree, s, parent.classId)
    ensures RunOn(tree, Seeing(classes), s, path, parent) ==
            RunBelow(tree, Seeing(classes), s, |tree[s].children|, path, Looking(tree, classes, s, parent))
  {
  }

  lemma LookingAdds(tree: seq<Stage>, classes: seq<int>, s: nat, parent: Detection)
    requires s < |tree| == |classes| && Emits(tree, s, classes[s])
    ensures Looking(tree, classes, s, parent) == Enriched(parent, None, [Added(s, classes[s])])
  {
    var reports := [Sees(classes[s])];
    assert reports[..0] == [];
    assert Kept(tree[s], s, 0, 0, reports) == [Placed(Fresh(reports[0]), s, 0, 0)];
  }

  lemma LookingGrows(tree: seq<Stage>, classes: seq<int>, s: nat, parent: Detection)
    requires s < |tree|
    ensures Grown(parent, Looking(tree, classes, s, parent))
  {
    forall i | 0 <= i < |parent.children| ensures Grown(parent.children[i], Looking(tree, classes, s, parent).children[i]) {
      GrownSelf(parent.children[i]);
    }
  }

  lemma {:induction false} OnSees(tree: seq<Stage>, classes: seq<int>, s: nat, path: seq<nat>, parent: Detection)
    requires Forward(tree) && s < |tree|
    ensures var r := RunOn(tree, Seeing(classes), s, path, parent); r.Ok? && Grown(parent, r.value)
    decreases |tree| - s, 1, 0
  {
    if Takes(tree, s, parent.classId) {
      OnIs(tree, classes, s, path, parent);
      LookingGrows(tree, classes, s, parent);
      BelowSees(tree, classes, s, |tree[s].children|, path, Looking(tree, classes, s, parent));
      hide RunOn;
      hide RunBelow;
      GrownOnce(parent, Looking(tree, classes, s, parent), RunOn(tree, Seeing(classes), s, path, parent).value);
    } else {
      GrownSelf(parent);
    }
  }

  lemma {:induction false} BelowSees(tree: seq<Stage>, classes: seq<int>, s: nat, n: nat, path: seq<nat>, parent: Detection)
    requires Forward(tree) && s < |tree| && n <= |tree[s].children|
    ensures var r := RunBelow(tree, Seeing(classes), s, n, path, parent);
            r.Ok? && Grown(parent, r.value) && |r.value.children| == |parent.children|
    decreases |tree| - s, 0, n
  {
    if n == 0 {
      GrownSelf(parent);
    } else {
      BelowSees(tree, classes, s, n - 1, path, parent);
      var before := RunBelow(tree, Seeing(classes), s, n - 1, path, parent).value;
      OverSees(tree, classes, tree[s].children[n - 1], path, before.children);
      hide RunOver;
      GrownOnce(parent, before, RunBelow(tree, Seeing(classes), s, n, path, parent).value);
    }
  }

  lemma OneMoreBelow(tree: seq<Stage>, classes: seq<int>, s: nat, n: nat, path: seq<nat>, parent: Detection)
    requires Forward(tree) && s < |tree| && 0 < n <= |tree[s].children|
    ensures var a, b := RunBelow(tree, Seeing(classes), s, n - 1, path, parent), RunBelow(tree, Seeing(classes), s, n, path, parent);
            a.Ok? && b.Ok? && Grown(a.value, b.value)
  {
    BelowSees(tree, classes, s, n - 1, path, parent);
    OverSees(tree, classes, tree[s].children[n - 1], path, RunBelow(tree, Seeing(classes), s, n - 1, path, parent).value.children);
    hide RunOver;
  }

  /** The stages below a stage only ever add. */
  lemma {:induction false} BelowGrows(tree: seq<Stage>, classes: seq<int>, s: nat, m: nat, n: nat, path: seq<nat>, parent: Detection)
    requires Forward(tree) && s < |tree| && m <= n <= |tree[s].children|
    ensures var a, b := RunBelow(tree, Seeing(classes), s, m, path, parent), RunBelow(tree, Seeing(classes), s, n, path, parent);
            a.Ok? && b.Ok? && Grown(a.value, b.value)
    decreases n - m
  {
    hide RunBelow;
    hide Grown;
    if m == n {
      BelowSees(tree, classes, s, m, path, parent);
      GrownSelf(RunBelow(tree, Seeing(classes), s, m, path, parent).value);
    } else {
      BelowGrows(tree, classes, s, m, n - 1, path, parent);
      OneMoreBelow(tree, classes, s, n, path, parent);
      GrownOnce(RunBelow(tree, Seeing(classes), s, m, path, parent).value,
                RunBelow(tree, Seeing(classes), s, n - 1, path, parent).value,
                RunBelow(tree, Seeing(classes), s, n, path, parent).value);
    }
  }

  /** One more stage below: what becomes of a child. */
  lemma ChildAt(tree: seq<Stage>, classes: seq<int>, s: nat, k: nat, path: seq<nat>, parent: Detection, i: nat)
    requires Forward(tree) && s < |tree| && k < |tree[s].children| && i < |parent.children|
    ensures var before, after := RunBelow(tree, Seeing(classes), s, k, path, parent), RunBelow(tree, Seeing(classes), s, k + 1, path, parent);
            && before.Ok? && after.Ok? && i < |before.value.children| && i < |after.value.children|
            && Grown(parent.children[i], before.value.children[i])
            && Ok(after.value.children[i]) == RunOn(tree, Seeing(classes), tree[s].children[k], path + [i], before.value.children[i])
  {
    BelowSees(tree, classes, s, k, path, parent);
    var before := RunBelow(tree, Seeing(classes), s, k, path, parent).value;
    OverSees(tree, classes, tree[s].children[k], path, before.children);
    hide RunOver;
    hide RunOn;
  }

  /** Running the stages below `s` over detections one of which is of this class goes wrong somewhere. */
  ghost predicate Misplaces(tree: seq<Stage>, classes: seq<int>, s: nat)
    requires Forward(tree) && s < |tree| == |classes|
  {
    forall path: seq<nat>, parent: Detection, i: nat :: HasClassAt(parent, i, classes[s]) ==> BelowNotStrict(tree, classes, s, path, parent)
  }

  predicate HasClassAt(parent: Detection, i: nat, classId: int) { i < |parent.children| && parent.children[i].classId == classId }

  ghost predicate BelowNotStrict(tree: seq<Stage>, classes: seq<int>, s: nat, path: seq<nat>, parent: Detection)
    requires Forward(tree) && s < |tree|
  {
    var r := RunBelow(tree, Seeing(classes), s, |tree[s].children|, path, parent);
    r.Ok? && !Strict(tree, r.value)
  }

  /** A child gone wrong stays wrong. */
  lemma ChildWrong(tree: seq<Stage>, classes: seq<int>, s: nat, k: nat, path: seq<nat>, parent: Detection, i: nat)
    requires Forward(tree) && s < |tree| && k < |tree[s].children|
    requires var after := RunBelow(tree, Seeing(classes), s, k + 1, path, parent);
             after.Ok? && i < |after.value.children| && !Strict(tree, after.value.children[i])
    ensures BelowNotStrict(tree, classes, s, path, parent)
  {
    var after := RunBelow(tree, Seeing(classes), s, k + 1, path, parent).value;
    assert !Strict(tree, after);
    BelowGrows(tree, classes, s, k + 1, |tree[s].children|, path, parent);
    GrownNotStrict(tree, after, RunBelow(tree, Seeing(classes), s, |tree[s].children|, path, parent).value);
  }

  /** A stage that finds a detection of another stage among those it looks below puts what the
      stages below it find under that one too. */
  lemma OthersAreMistaken(tree: seq<Stage>, classes: seq<int>, s: nat, k: nat, path: seq<nat>, parent: Detection, j: nat)
    requires Forward(tree) && s < |tree| == |classes| && k < |tree[s].children| && Takes(tree, s, parent.classId)
    requires j < |parent.children| && parent.children[j].stage != s && tree[tree[s].children[k]].config.parent == s
    requires Takes(tree, tree[s].children[k], parent.children[j].classId)
    requires Emits(tree, tree[s].children[k], classes[tree[s].children[k]])
    ensures var r := RunOn(tree, Seeing(classes), s, path, parent); r.Ok? && !Strict(tree, r.value)
  {
    OnIs(tree, classes, s, path, parent);
    var t, looking := tree[s].children[k], Looking(tree, classes, s, parent);
    assert looking.children[j] == parent.children[j];
    ChildAt(tree, classes, s, k, path, looking, j);
    var before := RunBelow(tree, Seeing(classes), s, k, path, looking).value.children[j];
    var after := RunBelow(tree, Seeing(classes), s, k + 1, path, looking).value;
    FoundUnder(tree, classes, t, path + [j], before);
    hide RunOn;
    hide RunBelow;
    var i := |before.children|;
    assert after.children[j].children[i].stage == t;
    assert !Strict(tree, after.children[j]);
    ChildWrong(tree, classes, s, k, path, looking, j);
  }

  /** A stage leaves what it finds on a detection under it. */
  lemma FoundUnder(tree: seq<Stage>, classes: seq<int>, s: nat, path: seq<nat>, parent: Detection)
    requires Forward(tree) && s < |tree| == |classes| && Takes(tree, s, parent.classId) && Emits(tree, s, classes[s])
    ensures var r, i := RunOn(tree, Seeing(classes), s, path, parent), |parent.children|;
            && r.Ok? && i < |r.value.children| && r.value.children[i].stage == s && r.value.children[i].classId == classes[s]
            && r.value.stage == parent.stage
  {
    OnIs(tree, classes, s, path, parent);
    LookingAdds(tree, classes, s, parent);
    BelowSees(tree, classes, s, |tree[s].children|, path, Looking(tree, classes, s, parent));
    hide RunBelow;
    hide RunOn;
    assert Grown(Added(s, classes[s]), RunOn(tree, Seeing(classes), s, path, parent).value.children[|parent.children|]);
  }

  /** A sibling `r` before `s` leaves its finding on the detection, and there it stays. */
  lemma SiblingSees(tree: seq<Stage>, classes: seq<int>, p: nat, a: nat, b: nat, path: seq<nat>, parent: Detection, i: nat) returns (j: nat)
    requires Forward(tree) && p < |tree| == |classes| && a < b < |tree[p].children| && i < |parent.children|
    requires Takes(tree, tree[p].children[a], parent.children[i].classId)
    requires Emits(tree, tree[p].children[a], classes[tree[p].children[a]])
    ensures var r := RunBelow(tree, Seeing(classes), p, b, path, parent);
            && r.Ok? && i < |r.value.children| && j < |r.value.children[i].children|
            && r.value.children[i].children[j].stage == tree[p].children[a]
            && r.value.children[i].children[j].classId == classes[tree[p].children[a]]
  {
    ChildAt(tree, classes, p, a, path, parent, i);
    var before := RunBelow(tree, Seeing(classes), p, a, path, parent).value.children[i];
    FoundUnder(tree, classes, tree[p].children[a], path + [i], before);
    BelowGrows(tree, classes, p, a + 1, b, path, parent);
    hide RunBelow;
    hide RunOn;
    j := |before.children|;
    var once, later := RunBelow(tree, Seeing(classes), p, a + 1, path, parent).value, RunBelow(tree, Seeing(classes), p, b, path, parent).value;
    assert Grown(once.children[i], later.children[i]);
    assert Grown(once.children[i].children[j], later.children[i].children[j]);
  }

  /** The classes that make the stages cross. */
  ghost predicate Cross(tree: seq<Stage>, classes: seq<int>, p: nat, r: nat, s: nat, t: nat)
    requires Tree(tree) && p < r < s < t < |tree| == |classes|
  {
    && tree[r].config.parent == p && tree[s].config.parent == p && tree[t].config.parent == s
    && Emits(tree, p, classes[p]) && Takes(tree, r, classes[p]) && Takes(tree, s, classes[p])
    && Emits(tree, r, classes[r]) && Takes(tree, t, classes[r]) && Emits(tree, t, classes[t])
  }

  lemma PlaceOf(tree: seq<Stage>, s: nat) returns (k: nat)
    requires Tree(tree) && 0 < s < |tree|
    ensures 0 <= tree[s].config.parent < s && k < |tree[tree[s].config.parent].children| && tree[tree[s].config.parent].children[k] == s
  {
    k :| 0 <= k < |tree[tree[s].config.parent].children| && tree[tree[s].config.parent].children[k] == s;
  }

  lemma CrossingMisplaces(tree: seq<Stage>, classes: seq<int>, p: nat, r: nat, s: nat, t: nat)
    requires Tree(tree) && p < r < s < t < |tree| == |classes| && Cross(tree, classes, p, r, s, t)
    ensures Misplaces(tree, classes, p)
  {
    var a := PlaceOf(tree, r);
    var b := PlaceOf(tree, s);
    var c := PlaceOf(tree, t);
    assert a < b;
    assert Forward(tree);
    hide Tree;
    forall path: seq<nat>, parent: Detection, i: nat | HasClassAt(parent, i, classes[p]) ensures BelowNotStrict(tree, classes, p, path, parent) {
      var j := SiblingSees(tree, classes, p, a, b, path, parent, i);
      ChildAt(tree, classes, p, b, path, parent, i);
      OthersAreMistaken(tree, classes, s, c, path + [i], RunBelow(tree, Seeing(classes), p, b, path, parent).value.children[i], j);
      ChildWrong(tree, classes, p, b, path, parent, i);
    }
  }

  /** Down to stage `s`, every stage takes the class its parent sees. */
  ghost predicate Chain(tree: seq<Stage>, classes: seq<int>, s: nat)
    requires Tree(tree) && s < |tree| == |classes|
  {
    s == 0 ||
    var g := tree[s].config.parent;
    Emits(tree, g, classes[g]) && Takes(tree, s, classes[g]) && Chain(tree, classes, g)
  }

  lemma {:induction false} SameChain(tree: seq<Stage>, a: seq<int>, b: seq<int>, s: nat)
    requires Tree(tree) && s < |tree| == |a| == |b| && a[..s] == b[..s] && Chain(tree, a, s)
    ensures Chain(tree, b, s)
    decreases s
  {
    if s > 0 {
      var g := tree[s].config.parent;
      assert a[..s][g] == b[..s][g];
      assert a[..s][..g] == a[..g] && b[..s][..g] == b[..g];
      SameChain(tree, a, b, g);
    }
  }

  lemma {:induction false} FeasibleChain(tree: seq<Stage>, s: nat) returns (classes: seq<int>)
    requires Tree(tree) && s < |tree| && Feasible(tree, s)
    ensures |classes| == |tree| && Chain(tree, classes, s)
    decreases s
  {
    if s == 0 {
      classes := seq(|tree|, i => 0);
    } else {
      var g := tree[s].config.parent;
      var before := FeasibleChain(tree, g);
      var c :| Emits(tree, g, c) && Takes(tree, s, c);
      classes := before[g := c];
      SameChain(tree, before, classes, g);
    }
  }

  lemma {:induction false} MisplacesFromRoot(tree: seq<Stage>, classes: seq<int>, s: nat)
    requires Tree(tree) && s < |tree| == |classes| && Misplaces(tree, classes, s) && Chain(tree, classes, s) && Emits(tree, s, classes[s])
    ensures Misplaces(tree, classes, 0) && Emits(tree, 0, classes[0])
    decreases s
  {
    if s > 0 {
      var k := PlaceOf(tree, s);
      var up := tree[s].config.parent;
      MisplacesUp(tree, classes, s, k);
      MisplacesFromRoot(tree, classes, up);
    }
  }

  lemma MisplacesUp(tree: seq<Stage>, classes: seq<int>, s: nat, k: nat)
    requires Forward(tree) && s < |tree| == |classes| && Misplaces(tree, classes, s) && Emits(tree, s, classes[s])
    requires 0 <= tree[s].config.parent < |tree| && k < |tree[tree[s].config.parent].children|
    requires tree[tree[s].config.parent].children[k] == s && Takes(tree, s, classes[tree[s].config.parent])
    ensures Misplaces(tree, classes, tree[s].config.parent)
  {
    var up := tree[s].config.parent;
    forall path: seq<nat>, parent: Detection, i: nat | HasClassAt(parent, i, classes[up]) ensures BelowNotStrict(tree, classes, up, path, parent) {
      ChildAt(tree, classes, up, k, path, parent, i);
      var before := RunBelow(tree, Seeing(classes), up, k, path, parent).value.children[i];
      OnIs(tree, classes, s, path + [i], before);
      LookingAdds(tree, classes, s, before);
      assert HasClassAt(Looking(tree, classes, s, before), |before.children|, classes[s]);
      assert BelowNotStrict(tree, classes, s, path + [i], Looking(tree, classes, s, before));
      ChildWrong(tree, classes, up, k, path, parent, i);
    }
  }

  /** Whether detections hang where the job says. */
  ghost predicate PlacesWell(tree: seq<Stage>, models: Models, reports: seq<Report>)
    requires Forward(tree) && tree != []
  {
    var r := RunTree(tree, models, reports);
    r.Ok? ==> AllStrict(tree, r.value, 0)
  }

  /** For every stage list, with any filters: whatever the models find, every detection hangs under
      one of its stage's configured parent, exactly when no stages cross. */
  lemma StrictExactlyWhenNothingCrosses(tree: seq<Stage>)
    requires Tree(tree)
    ensures NothingCrosses(tree) <==> forall models, reports :: PlacesWell(tree, models, reports)
  {
    hide PlacesWell;
    if NothingCrosses(tree) {
      forall models, reports ensures PlacesWell(tree, models, reports) {
        hide NothingCrosses;
        StrictWhenNothingCrosses(tree, models, reports);
      }
    } else {
      var p: nat, r: nat, s: nat, t: nat :| Crossing(tree, p, r, s, t);
      var classes := CrossingClasses(tree, p, r, s, t);
      CrossingMisplaces(tree, classes, p, r, s, t);
      MisplacesFromRoot(tree, classes, p);
      OneThingEverywhere(tree, classes);
    }
  }

  lemma CrossingClasses(tree: seq<Stage>, p: nat, r: nat, s: nat, t: nat) returns (classes: seq<int>)
    requires Tree(tree) && Crossing(tree, p, r, s, t)
    ensures |classes| == |tree| && Cross(tree, classes, p, r, s, t) && Chain(tree, classes, p)
  {
    var chain := FeasibleChain(tree, p);
    var c :| Emits(tree, p, c) && Takes(tree, r, c) && Takes(tree, s, c);
    var e :| Emits(tree, r, e) && Takes(tree, t, e);
    var filter := tree[t].config.classFilter;
    classes := chain[p := c][r := e][t := if filter == [] then 0 else filter[0]];
    SameChain(tree, chain, classes, p);
    hide Chain;
    hide Feasible;
  }

  lemma OneThingEverywhere(tree: seq<Stage>, classes: seq<int>)
    requires Tree(tree) && |classes| == |tree| && Misplaces(tree, classes, 0) && Emits(tree, 0, classes[0])
    ensures !PlacesWell(tree, Seeing(classes), [Sees(classes[0])])
  {
    assert [Sees(classes[0])][..0] == [];
    assert Kept(tree[0], 0, 0, 0, [Sees(classes[0])]) == [Added(0, classes[0])];
    var frame := Frame([Added(0, classes[0])]);
    assert HasClassAt(frame, 0, classes[0]);
    assert BelowNotStrict(tree, classes, 0, [], frame);
    BelowSees(tree, classes, 0, |tree[0].children|, [], frame);
    hide RunBelow;
  }

  ghost predicate Unfiltered(tree: seq<Stage>) {
    forall s :: 0 <= s < |tree| ==> tree[s].config.inputClasses == [] && tree[s].config.classFilter == []
  }

  /** Without filters stages cross exactly when one with an earlier sibling has stages below it. */
  lemma StrictExactlyWhenOnlyFirstNests(tree: seq<Stage>)
    requires Tree(tree) && Unfiltered(tree)
    ensures OnlyFirstNests(Configs(tree)) <==> forall models, reports :: PlacesWell(tree, models, reports)
  {
    StrictExactlyWhenNothingCrosses(tree);
    hide PlacesWell;
    if OnlyFirstNests(Configs(tree)) {
      forall p: nat, r: nat, s: nat, t: nat ensures !Crossing(tree, p, r, s, t) { NestedFirst(tree, p, r, s, t); }
    } else {
      NestedLater(tree);
    }
    hide Crossing;
    hide OnlyFirstNests;
  }

  lemma NestedLater(tree: seq<Stage>)
    requires Tree(tree) && Unfiltered(tree) && !OnlyFirstNests(Configs(tree))
    ensures !NothingCrosses(tree)
  {
    var configs := Configs(tree);
    var r, s, t :| 0 < r < s < |tree| && 0 < t < |tree| && configs[r].parent == configs[s].parent && configs[t].parent == s;
    AlwaysFeasible(tree, tree[r].config.parent);
    hide Tree;
    hide Feasible;
    hide Crossing;
    CrossingBy(tree, tree[r].config.parent, r, s, t, 0, 0);
  }

  lemma {:induction false} AlwaysFeasible(tree: seq<Stage>, s: nat)
    requires Tree(tree) && Unfiltered(tree) && s < |tree|
    ensures Feasible(tree, s)
  {
    if s > 0 {
      AlwaysFeasible(tree, tree[s].config.parent);
      assert Emits(tree, tree[s].config.parent, 0) && Takes(tree, s, 0);
    }
  }

  // ---------------------------------------------------------------- the class

  /** The stages with the first `n` of them linked to their parents. */
  function Linked(configs: seq<AiStage>, n: nat): seq<Stage>
    requires n <= |configs|
  {
    seq(|configs|, k requires 0 <= k < |configs| => Stage(configs[k], ChildrenOf(configs, k, n)))
  }

  lemma LinkOneMore(configs: seq<AiStage>, i: nat)
    requires 0 < i < |configs| && Backward(configs)
    ensures var before, parent := Linked(configs, i), configs[i].parent;
            Linked(configs, i + 1) == before[parent := before[parent].(children := before[parent].children + [i])]
  {
    assert forall k :: 0 <= k < |configs| ==>
             ChildrenOf(configs, k, i + 1) == ChildrenOf(configs, k, i) + if k == configs[i].parent then [i] else [];
    hide ChildrenOf;
  }

  /** What a failed load leaves: the stages before the first that will not load, none linked to another. */
  ghost predicate HalfLoaded(tree: seq<Stage>, configs: seq<AiStage>, loads: nat -> bool) {
    && |tree| < |configs| && !loads(|tree|)
    && forall k :: 0 <= k < |tree| ==> tree[k] == Stage(configs[k], []) && loads(k)
  }

  /** A runner whose load failed half way runs all the same, as if its list were the first stage alone. */
  lemma HalfLoadedRunsFirst(tree: seq<Stage>, configs: seq<AiStage>, loads: nat -> bool, models: Models, reports: seq<Report>)
    requires HalfLoaded(tree, configs, loads) && tree != []
    ensures Forward(tree) && Forward(Loaded(configs[..1]))
    ensures RunTree(tree, models, reports) == RunTree(Loaded(configs[..1]), models, reports)
            == Ok(Kept(tree[0], 0, 0, 0, reports))
  {
    var alone := Loaded(configs[..1]);
    assert alone == [Stage(configs[0], [])];
    assert RunBelow(tree, models, 0, 0, [], Frame(Kept(tree[0], 0, 0, 0, reports))) == Ok(Frame(Kept(tree[0], 0, 0, 0, reports)));
    assert RunBelow(alone, models, 0, 0, [], Frame(Kept(tree[0], 0, 0, 0, reports))) == Ok(Frame(Kept(tree[0], 0, 0, 0, reports)));
  }

  class StageRunner {
    var stages: seq<Stage>

    ghost predicate Valid()
      reads this
    {
      Forward(stages)
    }

    constructor ()
      ensures Valid() && stages == []
    {
      stages := [];
    }

    /** `loads` says which models the machine can load. A stage that will not load leaves the ones
        before it, loaded but with nothing below any of them. */
    method Init(configs: seq<AiStage>, models: set<string>, transforms: set<string>, loads: nat -> bool) returns (ok: bool)
      modifies this
      ensures Valid()
      ensures ok == (ValidStages(configs, models, transforms) && forall i :: 0 <= i < |configs| ==> loads(i))
      ensures ok ==> stages == Loaded(configs) && Tree(stages)
      ensures !ValidStages(configs, models, transforms) ==> stages == []
      ensures ValidStages(configs, models, transforms) && !ok ==> HalfLoaded(stages, configs, loads)
    {
      stages := [];
      ok := ValidateStages(configs, models, transforms);
      if !ok { return; }
      for i := 0 to |configs|
        invariant |stages| == i && forall k :: 0 <= k < i ==> stages[k] == Stage(configs[k], []) && loads(k)
      {
        if !loads(i) { return false; }
        stages := stages + [Stage(configs[i], [])];
      }
      Link(configs);
      LoadedIsTree(configs);
    }

    method Link(configs: seq<AiStage>)
      requires configs != [] && Backward(configs)
      requires |stages| == |configs| && forall k :: 0 <= k < |configs| ==> stages[k] == Stage(configs[k], [])
      modifies this
      ensures stages == Loaded(configs)
    {
      assert stages == Linked(configs, 1);
      for i := 1 to |configs|
        invariant stages == Linked(configs, i)
      {
        LinkOneMore(configs, i);
        var parent := stages[i].config.parent;
        stages := stages[parent := stages[parent].(children := stages[parent].children + [i])];
      }
      assert stages == Loaded(configs);
    }

    /** A stage over a list of detections, each changed where it stands. */
    method RunChildStage(models: Models, index: nat, path: seq<nat>, parents: seq<Detection>) returns (r: Result<seq<Detection>>)
      requires Valid() && index < |stages|
      ensures r == RunOver(stages, models, index, path, parents)
      decreases |stages| - index, 2
    {
      var done := parents;
      for j := 0 to |parents|
        invariant |done| == |parents| && forall k :: j <= k < |parents| ==> done[k] == parents[k]
        invariant RunOver(stages, models, index, path, parents[..j]) == Ok(done[..j])
      {
        assert parents[..j + 1][..j] == parents[..j];
        var r := RunOneParent(models, index, path + [j], done[j]);
        if r.Error? {
          OverFails(stages, models, index, path, parents, j + 1);
          return Error;
        }
        assert done[..j] + [r.value] == done[j := r.value][..j + 1];
        done := done[j := r.value];
      }
      assert parents[..|parents|] == parents && done[..|parents|] == done;
      return Ok(done);
    }

    method RunOneParent(models: Models, index: nat, path: seq<nat>, detection: Detection) returns (r: Result<Detection>)
      requires Valid() && index < |stages|
      ensures r == RunOn(stages, models, index, path, detection)
      decreases |stages| - index, 1
    {
      var stage, parent := stages[index], detection;
      if !PassesFilter(stage.config.inputClasses, parent.classId) { return Ok(parent); }
      match models(index, path)
      case Skipped => return Ok(parent);
      case Failed => return Error;
      case Looked(x, y, embedding, reports) =>
        var before := |parent.children|;
        parent := Enriched(parent, embedding, Enrich(reports));
        var placed := PlaceNew(stage, index, x, y, parent.children, before, reports);
        parent := parent.(children := placed);
        assert parent == Enriched(detection, embedding, Kept(stage, index, x, y, reports));
        r := RunGrandchildren(models, index, path, parent);
    }

    /** Gives every new child its place in the frame and its stage, then drops what the stage's filter rejects. */
    method PlaceNew(stage: Stage, index: nat, x: int, y: int, list: seq<Detection>, before: nat, ghost reports: seq<Report>)
        returns (children: seq<Detection>)
      requires before <= |list| && list[before..] == Enrich(reports)
      ensures children == list[..before] + Kept(stage, index, x, y, reports)
    {
      children := list;
      for i := before to |list|
        invariant |children| == |list| && children[..before] == list[..before]
        invariant forall k :: before <= k < |list| ==>
                    children[k] == if k < i && PassesFilter(stage.config.classFilter, list[k].classId)
                                   then Placed(list[k], index, x, y) else list[k]
      {
        if PassesFilter(stage.config.classFilter, children[i].classId) {
          children := children[i := Placed(children[i], index, x, y)];
        }
      }
      var left := children[..before];
      for i := before to |list|
        invariant left == list[..before] + Kept(stage, index, x, y, reports[..i - before])
      {
        assert reports[..i + 1 - before][..i - before] == reports[..i - before];
        assert list[i] == list[before..][i - before] == Fresh(reports[i - before]);
        if PassesFilter(stage.config.classFilter, children[i].classId) { left := left + [children[i]]; }
      }
      assert reports[..|reports|] == reports;
      children := left;
    }

    method RunGrandchildren(models: Models, index: nat, path: seq<nat>, detection: Detection) returns (r: Result<Detection>)
      requires Valid() && index < |stages|
      ensures r == RunBelow(stages, models, index, |stages[index].children|, path, detection)
      decreases |stages| - index, 0
    {
      hide RunOver;
      hide RunOn;
      var parent, below := detection, stages[index].children;
      for n := 0 to |below|
        invariant RunBelow(stages, models, index, n, path, detection) == Ok(parent)
      {
        var ran := RunChildStage(models, below[n], path, parent.children);
        if ran.Error? {
          BelowFails(stages, models, index, path, detection, n + 1, |below|);
          return Error;
        }
        parent := parent.(children := ran.value);
      }
      return Ok(parent);
    }

    /** The whole tree over one frame. */
    method Run(models: Models, reports: seq<Report>) returns (r: Result<seq<Detection>>)
      requires Valid()
      ensures r == if stages == [] then Error else RunTree(stages, models, reports)
    {
      if stages == [] { return Error; }
      var kept := [];
      for i := 0 to |reports|
        invariant kept == Kept(stages[0], 0, 0, 0, reports[..i])
      {
        assert reports[..i + 1][..i] == reports[..i];
        if PassesFilter(stages[0].config.classFilter, reports[i].classId) {
          // The boxes of stage 0 are in the frame already.
          assert Moved(reports[i].box, 0, 0) == reports[i].box;
          kept := kept + [Detection(reports[i].box, reports[i].classId, [], Some(reports[i].box), 0, [])];
        }
      }
      assert reports[..|reports|] == reports;
      var run := RunGrandchildren(models, 0, [], Frame(kept));
      if run.Error? { return Error; }
      return Ok(run.value.children);
    }
  }

  lemma {:induction false} OverFails(tree: seq<Stage>, models: Models, s: nat, path: seq<nat>, parents: seq<Detection>, n: nat)
    requires Forward(tree) && s < |tree| && n <= |parents| && RunOver(tree, models, s, path, parents[..n]).Error?
    ensures RunOver(tree, models, s, path, parents).Error?
    decreases |parents| - n
  {
    if n == |parents| {
      assert parents[..n] == parents;
    } else {
      assert parents[..n + 1][..n] == parents[..n];
      OverFails(tree, models, s, path, parents, n + 1);
    }
  }

  lemma {:induction false} BelowFails(tree: seq<Stage>, models: Models, s: nat, path: seq<nat>, parent: Detection, m: nat, n: nat)
    requires Forward(tree) && s < |tree| && m <= n <= |tree[s].children| && RunBelow(tree, models, s, m, path, parent).Error?
    ensures RunBelow(tree, models, s, n, path, parent).Error?
    decreases n - m
  {
    if m < n { BelowFails(tree, models, s, path, parent, m, n - 1); }
  }
}
